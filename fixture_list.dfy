/**
 * The fixture list's colour swatches (getFixtureColor): a case-insensitive
 * lookup of the fixture type in a table of CSS classes, with a grey
 * fallback; and the legend of the guide tab, which shows the same classes.
 */
module FixtureList {
  import opened JsText
  import JsObjects
  import Renderer

  const FixtureClasses: map<string, string> := map[
    "sink" := "bg-blue-500",
    "mirror" := "bg-teal-400",
    "light" := "bg-orange-500",
    "outlet" := "bg-red-600",
    "window" := "bg-green-500",
    "cabinet" := "bg-yellow-700",
    "door" := "bg-purple-600",
    "default" := "bg-gray-500"]

  const DefaultClass := "bg-gray-500"

  /** `colors[type.toLowerCase()] || colors.default`, looking only at the table's own entries. */
  function FixtureClass(kind: string): string {
    var key := ToLower(kind);
    if key in FixtureClasses && FixtureClasses[key] != "" then FixtureClasses[key] else FixtureClasses["default"]
  }

  /** A listed type (in any case) gets its own class, every other type the grey one; no other class is ever returned. */
  lemma FixtureClassTable(kind: string)
    ensures FixtureClass(kind) in FixtureClasses.Values
    ensures ToLower(kind) in FixtureClasses ==> FixtureClass(kind) == FixtureClasses[ToLower(kind)]
    ensures ToLower(kind) !in FixtureClasses ==> FixtureClass(kind) == DefaultClass
    ensures ToLower(kind) == "default" ==> FixtureClass(kind) == DefaultClass
  {
  }

  /** The class does not depend on the case of the type tag. */
  lemma FixtureClassIgnoresCase(kind: string)
    ensures FixtureClass(kind) == FixtureClass(ToLower(kind))
  {
    ToLowerIdempotent(kind);
  }

  /** One swatch of the guide tab's legend: a class and the type it stands for. */
  datatype LegendEntry = LegendEntry(color: string, caption: string)

  const Legend: seq<LegendEntry> := [
    LegendEntry("bg-blue-500", "Sink"),
    LegendEntry("bg-teal-400", "Mirror"),
    LegendEntry("bg-orange-500", "Light"),
    LegendEntry("bg-red-600", "Outlet"),
    LegendEntry("bg-green-500", "Window"),
    LegendEntry("bg-yellow-700", "Cabinet"),
    LegendEntry("bg-purple-600", "Door"),
    LegendEntry("bg-gray-500", "Other")]

  /** Every legend swatch is the class the list gives a fixture whose type is the swatch's caption. */
  lemma LegendMatchesList(i: int)
    requires 0 <= i < |Legend|
    ensures FixtureClass(Legend[i].caption) == Legend[i].color
  {
    LegendCaptionKey(i);
  }

  /** The legend captions, lower-cased. */
  const LegendKeys: seq<string> := ["sink", "mirror", "light", "outlet", "window", "cabinet", "door", "other"]

  lemma LegendCaptionKey(i: int)
    requires 0 <= i < |Legend|
    ensures ToLower(Legend[i].caption) == LegendKeys[i]
  {
    if i == 0 {
      CapitalisedKey("Sink", "sink");
    } else if i == 1 {
      CapitalisedKey("Mirror", "mirror");
    } else if i == 2 {
      CapitalisedKey("Light", "light");
    } else if i == 3 {
      CapitalisedKey("Outlet", "outlet");
    } else if i == 4 {
      CapitalisedKey("Window", "window");
    } else if i == 5 {
      CapitalisedKey("Cabinet", "cabinet");
    } else if i == 6 {
      CapitalisedKey("Door", "door");
    } else {
      CapitalisedKey("Other", "other");
    }
  }

  /** Lower-casing a capitalised word changes only its first letter. */
  lemma CapitalisedKey(word: string, key: string)
    requires |word| == |key| > 0
    requires key[0] == LowerChar(word[0]) && word[1..] == key[1..] && IsLowerCase(key[1..])
    ensures ToLower(word) == key
  {
    ToLowerLowers(key[1..]);
    assert ToLower(word) == [LowerChar(word[0])] + ToLower(word[1..]);
  }

  /** The list and the drawing know the same fixture types: a type gets the grey class exactly when it gets the grey colour. */
  lemma PalettesAgreeOnKnownKinds(kind: string)
    ensures FixtureClasses.Keys == Renderer.FixtureColors.Keys
    ensures FixtureClass(kind) == DefaultClass <==> Renderer.ColorFor(kind) == Renderer.DefaultColor
  {
    Renderer.ColorForTable(kind);
  }

  /** `colors[type.toLowerCase()] || colors.default` as written, prototype lookup included. */
  function FixtureClassAsWritten(kind: string): JsObjects.Value {
    JsObjects.Or(JsObjects.Get(FixtureClasses, ToLower(kind)), JsObjects.Get(FixtureClasses, "default"))
  }

  /** Unless the lower-cased type names a prototype member, the lookup as written gives `FixtureClass`'s class. */
  lemma FixtureClassAsWrittenAgrees(kind: string)
    ensures ToLower(kind) !in JsObjects.PrototypeMembers ==> FixtureClassAsWritten(kind) == JsObjects.Str(FixtureClass(kind))
  {
    JsObjects.GetIsOwnExceptPrototype(FixtureClasses, ToLower(kind));
  }

  /** A fixture of type "Constructor" is given the inherited `Object` function instead of a class name. */
  lemma FixtureClassAsWrittenInherits()
    ensures FixtureClassAsWritten("Constructor") == JsObjects.Inherited("constructor")
    ensures FixtureClass("Constructor") == DefaultClass
  {
    assert ToLower("Constructor") == "constructor";
  }

  /**
   * Exactly two types go wrong as written: those that lower-case to a
   * prototype member spelled in lower case.
   */
  lemma FixtureClassAsWrittenFailsOn(kind: string)
    ensures !FixtureClassAsWritten(kind).Str? <==> ToLower(kind) in JsObjects.LowerCaseMembers
  {
    var key := ToLower(kind);
    ToLowerLowers(kind);
    JsObjects.GetIsOwnExceptPrototype(FixtureClasses, key);
    JsObjects.LowerCasePrototypeMembers(key);
  }
}
