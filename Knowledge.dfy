/**
 * The in-memory knowledge base: a fixed table of product facts, built once
 * and never changed. Each entry of the table is one constant here.
 *
 * Long texts are written as a concatenation of shorter literals; the value
 * is the same string, and the solver reads short literals far more easily.
 */
module Knowledge {

  // ---- 'hardieplank'

  const PlankDescription: string :=
    "HardiePlank® lap siding is a fiber " + "cement siding that combines the " +
    "look of wood with superior " + "durability and performance."

  const PlankInstallation: seq<string> := [
    "Start with proper wall " + "preparation and moisture barrier",
    "Install starter strip at " + "bottom of wall",
    "Cut siding with appropriate tools " + "(circular saw with carbide blade)",
    "Maintain 1/4\" gap at all " + "joints and penetrations",
    "Use corrosion-resistant fasteners " + "(stainless steel or galvanized)",
    "Pre-drill holes for nails " + "to prevent cracking"
  ]

  const PlankTools: seq<string> :=
    ["Circular saw with carbide blade", "Drill", "Level", "Chalk line", "Safety equipment"]

  const PlankFasteners: string := "Use 6d or 8d galvanized or " + "stainless steel siding nails"

  // ---- 'hardietrim'

  const TrimDescription: string :=
    "HardieTrim® boards provide clean " + "lines and architectural detail " +
    "with the durability of fiber cement."

  const TrimInstallation: seq<string> := [
    "Cut with carbide-tipped blade",
    "Pre-drill nail holes",
    "Maintain proper clearances from " + "grade and rooflines",
    "Seal all cut edges with " + "approved primer/paint"
  ]

  // ---- 'installation_general'

  const GeneralInstallation: seq<string> := [
    "Always follow local building codes",
    "Maintain proper clearances " + "(6\" from grade, 2\" from rooflines)",
    "Use proper flashing and " + "weather barriers",
    "Prime and paint all cut edges " + "within 60 days",
    "Store materials flat and " + "off the ground"
  ]

  // ---- facts about the table
  // Each check below reads every character of the literals involved, so the
  // checks are split into groups of a few lines each.

  lemma PlankStepsSingleLineFirst()
    ensures '\n' !in PlankInstallation[0] && '\n' !in PlankInstallation[1]
  {
  }

  lemma PlankStepsSingleLineMiddle()
    ensures '\n' !in PlankInstallation[2] && '\n' !in PlankInstallation[3]
  {
  }

  lemma PlankStepsSingleLineLast()
    ensures '\n' !in PlankInstallation[4] && '\n' !in PlankInstallation[5]
  {
  }

  /** No installation step of HardiePlank spans two lines. */
  lemma PlankStepsAreSingleLines()
    ensures forall k :: 0 <= k < |PlankInstallation| ==> '\n' !in PlankInstallation[k]
  {
    PlankStepsSingleLineFirst();
    PlankStepsSingleLineMiddle();
    PlankStepsSingleLineLast();
  }

  lemma GeneralStepsSingleLineFirst()
    ensures '\n' !in GeneralInstallation[0] && '\n' !in GeneralInstallation[1]
  {
  }

  lemma GeneralStepsSingleLineMiddle()
    ensures '\n' !in GeneralInstallation[2] && '\n' !in GeneralInstallation[3]
  {
  }

  lemma GeneralStepsSingleLineLast()
    ensures '\n' !in GeneralInstallation[4]
  {
  }

  /** No general installation guideline spans two lines. */
  lemma GeneralStepsAreSingleLines()
    ensures forall k :: 0 <= k < |GeneralInstallation| ==> '\n' !in GeneralInstallation[k]
  {
    GeneralStepsSingleLineFirst();
    GeneralStepsSingleLineMiddle();
    GeneralStepsSingleLineLast();
  }
}
