/**
 * `AiAnalysisFormatter`: turn the JSON text of an analysis into labelled
 * paragraphs, and pick its priority for a badge.  Parsing the JSON is a
 * library call; here it is a parameter that yields each top-level field's
 * text, or None when the text does not parse.
 */
module AiAnalysisFormatter {
  import opened Wrappers
  import opened Strings

  /** Returned for a null or blank analysis. */
  const Unavailable: string := "Анализ недоступен"
  /** The priority when none can be read. */
  const UnknownPriority: string := "unknown"
  /** Between two emitted entries. */
  const Separator: string := "\n\n"
  const PriorityKey: string := "priority"

  /** A parsed JSON object: each field name with the text `asText()` gives
      for its value. */
  type Json = map<string, string>

  /** `ObjectMapper.readTree`: None when it throws. */
  type JsonParser = string -> Option<Json>

  /** The heading shown for a JSON field (Java calls it the label). */
  datatype Field = Field(heading: string, key: string)

  const SummaryField: Field := Field("📝 Краткое содержание", "summary")
  const IntentField: Field := Field("🎯 Цель письма", "intent")
  const ToneField: Field := Field("😊 Тональность", "tone")
  const PriorityField: Field := Field("⚡ Приоритет", "priority")
  const ActionField: Field := Field("✅ Рекомендация", "action")

  /** The fields `formatAnalysis` shows, in the order it shows them. */
  const Fields: seq<Field> := [SummaryField, IntentField, ToneField, PriorityField, ActionField]

  /** A field is shown when it is present and its text is not blank. */
  predicate Shown(root: Json, key: string) {
    key in root && !IsBlank(root[key])
  }

  /** The text emitted for one shown field. */
  function Entry(heading: string, value: string): string {
    heading + ":\n" + value
  }

  /** The entry emitted for one field: none, or one. */
  function Emitted(root: Json, f: Field): seq<string> {
    if Shown(root, f.key) then [Entry(f.heading, root[f.key])] else []
  }

  /** The entries emitted for `fields`, in their order. */
  function Entries(root: Json, fields: seq<Field>): seq<string>
    decreases |fields|
  {
    if fields == [] then [] else Emitted(root, fields[0]) + Entries(root, fields[1..])
  }

  /** The parts with a separator between each two neighbours. */
  function Join(parts: seq<string>): string
    decreases |parts|
  {
    if |parts| == 0 then ""
    else if |parts| == 1 then parts[0]
    else parts[0] + Separator + Join(parts[1..])
  }

  /** What `formatAnalysis` builds from a parsed analysis. */
  function Formatted(root: Json): string {
    Join(Entries(root, Fields))
  }

  predicate NonEmptyParts(parts: seq<string>) {
    forall i :: 0 <= i < |parts| ==> parts[i] != ""
  }

  /** The `StringBuilder` the entries are appended to. */
  class StringBuilder {
    var text: string

    constructor ()
      ensures text == ""
    {
      text := "";
    }

    function Length(): nat
      reads this
    {
      |text|
    }

    method Append(s: string)
      modifies this
      ensures text == old(text) + s
    {
      text := text + s;
    }
  }

  lemma {:induction false} JoinAppend(parts: seq<string>, p: string)
    requires parts != []
    ensures Join(parts + [p]) == Join(parts) + Separator + p
    decreases |parts|
  {
    if |parts| > 1 {
      assert (parts + [p])[1..] == parts[1..] + [p];
      JoinAppend(parts[1..], p);
    } else {
      assert parts + [p] == [parts[0], p];
    }
  }

  lemma {:induction false} JoinEmpty(parts: seq<string>)
    requires NonEmptyParts(parts)
    ensures Join(parts) == "" <==> parts == []
  {
    if |parts| > 1 {
      assert parts[0] != "";
    } else if |parts| == 1 {
      assert parts[0] != "";
    }
  }

  /** `addField`: append the field's entry when it is shown, after a
      separator when the builder already holds text.  The builder keeps
      holding the joined entries so far. */
  method AddField(sb: StringBuilder, heading: string, root: Json, fieldName: string, ghost done: seq<string>)
    requires sb.text == Join(done) && NonEmptyParts(done)
    modifies sb
    ensures sb.text == Join(done + Emitted(root, Field(heading, fieldName)))
    ensures NonEmptyParts(done + Emitted(root, Field(heading, fieldName)))
  {
    if fieldName in root {
      var value := root[fieldName];
      if !IsBlank(value) {
        JoinEmpty(done);
        if sb.Length() > 0 {
          sb.Append(Separator);
          JoinAppend(done, Entry(heading, value));
        } else {
          assert done + [Entry(heading, value)] == [Entry(heading, value)];
        }
        sb.Append(heading);
        sb.Append(":\n");
        sb.Append(value);
        assert sb.text == Join(done + [Entry(heading, value)]);
        assert |Entry(heading, value)| >= 2;
        return;
      }
    }
    assert done + [] == done;
  }

  lemma {:induction false} EntriesAppend(root: Json, a: seq<Field>, b: seq<Field>)
    ensures Entries(root, a + b) == Entries(root, a) + Entries(root, b)
    decreases |a|
  {
    if a == [] {
      assert a + b == b;
    } else {
      assert (a + b)[1..] == a[1..] + b;
      EntriesAppend(root, a[1..], b);
    }
  }

  lemma EntriesCons(root: Json, f: Field, rest: seq<Field>)
    ensures Entries(root, [f] + rest) == Emitted(root, f) + Entries(root, rest)
  {
    assert ([f] + rest)[1..] == rest;
  }

  lemma EntriesOfFive(root: Json, a: Field, b: Field, c: Field, d: Field, e: Field)
    ensures Entries(root, [a, b, c, d, e])
         == Emitted(root, a) + Emitted(root, b) + Emitted(root, c) + Emitted(root, d) + Emitted(root, e)
  {
    assert [a, b, c, d, e] == [a] + [b, c, d, e];
    assert [b, c, d, e] == [b] + [c, d, e];
    assert [c, d, e] == [c] + [d, e];
    assert [d, e] == [d] + [e];
    EntriesCons(root, a, [b, c, d, e]);
    EntriesCons(root, b, [c, d, e]);
    EntriesCons(root, c, [d, e]);
    EntriesCons(root, d, [e]);
    EntriesSingleton(root, e);
    var ea, eb, ec, ed, ee := Emitted(root, a), Emitted(root, b), Emitted(root, c), Emitted(root, d), Emitted(root, e);
    assert ea + (eb + (ec + (ed + ee))) == ea + eb + ec + ed + ee;
  }

  /** The entries of the whole table, one field after the other. */
  lemma EntriesOfFields(root: Json)
    ensures Entries(root, Fields)
         == Emitted(root, SummaryField) + Emitted(root, IntentField) + Emitted(root, ToneField)
            + Emitted(root, PriorityField) + Emitted(root, ActionField)
  {
    EntriesOfFive(root, SummaryField, IntentField, ToneField, PriorityField, ActionField);
  }

  lemma EntriesSingleton(root: Json, f: Field)
    ensures Entries(root, [f]) == Emitted(root, f)
  {
    assert [f][1..] == [];
  }

  /** `formatAnalysis`: a null or blank text gives `Анализ недоступен`; a
      text that does not parse is returned unchanged; otherwise the shown
      fields are joined in table order. */
  method FormatAnalysis(parse: JsonParser, jsonAnalysis: Option<string>) returns (r: string)
    ensures (jsonAnalysis.None? || IsBlank(jsonAnalysis.value)) ==> r == Unavailable
    ensures jsonAnalysis.Some? && !IsBlank(jsonAnalysis.value) && parse(jsonAnalysis.value).None?
            ==> r == jsonAnalysis.value
    ensures jsonAnalysis.Some? && !IsBlank(jsonAnalysis.value) && parse(jsonAnalysis.value).Some?
            ==> r == Formatted(parse(jsonAnalysis.value).value)
  {
    if jsonAnalysis.None? || IsBlank(jsonAnalysis.value) {
      return Unavailable;
    }
    var parsed := parse(jsonAnalysis.value);
    if parsed.None? {
      return jsonAnalysis.value;
    }
    var root := parsed.value;
    var formatted := new StringBuilder();
    ghost var done: seq<string> := [];
    AddField(formatted, "📝 Краткое содержание", root, "summary", done);
    done := done + Emitted(root, SummaryField);
    AddField(formatted, "🎯 Цель письма", root, "intent", done);
    done := done + Emitted(root, IntentField);
    AddField(formatted, "😊 Тональность", root, "tone", done);
    done := done + Emitted(root, ToneField);
    AddField(formatted, "⚡ Приоритет", root, "priority", done);
    done := done + Emitted(root, PriorityField);
    AddField(formatted, "✅ Рекомендация", root, "action", done);
    done := done + Emitted(root, ActionField);
    EntriesOfFields(root);
    assert [] + Emitted(root, SummaryField) == Emitted(root, SummaryField);
    return formatted.text;
  }

  /** `extractPriority`: the priority text, lower-cased; `unknown` for a
      null, blank or unparseable text and when the field is missing. */
  function ExtractPriority(parse: JsonParser, jsonAnalysis: Option<string>): (r: string)
    ensures forall i :: 0 <= i < |r| ==> !IsUpper(r[i])
  {
    if jsonAnalysis.None? || IsBlank(jsonAnalysis.value) then UnknownPriority
    else match parse(jsonAnalysis.value)
      case None => UnknownPriority
      case Some(root) => if PriorityKey in root then ToLower(root[PriorityKey]) else UnknownPriority
  }

  // ---- properties of the formatted text

  lemma {:induction false} EntriesNoneShown(root: Json, fields: seq<Field>)
    requires forall i :: 0 <= i < |fields| ==> !Shown(root, fields[i].key)
    ensures Entries(root, fields) == []
    decreases |fields|
  {
    if fields != [] {
      EntriesNoneShown(root, fields[1..]);
    }
  }

  /** When no field is shown, the result is empty: no heading and no
      separator. */
  lemma FormattedNothingShown(root: Json)
    requires forall i :: 0 <= i < |Fields| ==> !Shown(root, Fields[i].key)
    ensures Formatted(root) == ""
  {
    EntriesNoneShown(root, Fields);
  }

  /** Splitting a field list at `k` splits the entries the same way. */
  lemma EntriesAround(root: Json, fields: seq<Field>, k: nat)
    requires k < |fields|
    ensures Entries(root, fields)
         == Entries(root, fields[..k]) + Emitted(root, fields[k]) + Entries(root, fields[k + 1..])
  {
    assert fields == fields[..k] + ([fields[k]] + fields[k + 1..]);
    EntriesAppend(root, fields[..k], [fields[k]] + fields[k + 1..]);
    EntriesAppend(root, [fields[k]], fields[k + 1..]);
    EntriesSingleton(root, fields[k]);
  }

  /** A field shown alone is emitted as exactly `heading + ":\n" + value`. */
  lemma FormattedSingleField(root: Json, k: nat)
    requires k < |Fields| && Shown(root, Fields[k].key)
    requires forall i :: 0 <= i < |Fields| && i != k ==> !Shown(root, Fields[i].key)
    ensures Formatted(root) == Fields[k].heading + ":\n" + root[Fields[k].key]
  {
    EntriesAround(root, Fields, k);
    EntriesNoneShown(root, Fields[..k]);
    EntriesNoneShown(root, Fields[k + 1..]);
  }

  /** With all five fields shown, the entries appear in table order, with
      one separator between each two. */
  lemma FormattedAllFields(root: Json)
    requires Shown(root, "summary") && Shown(root, "intent") && Shown(root, "tone")
    requires Shown(root, "priority") && Shown(root, "action")
    ensures Formatted(root)
         == Entry(Fields[0].heading, root["summary"]) + Separator
          + Entry(Fields[1].heading, root["intent"]) + Separator
          + Entry(Fields[2].heading, root["tone"]) + Separator
          + Entry(Fields[3].heading, root["priority"]) + Separator
          + Entry(Fields[4].heading, root["action"])
  {
    var es := seq(5, i requires 0 <= i < 5 => Entry(Fields[i].heading, root[Fields[i].key]));
    EntriesOfFields(root);
    assert Entries(root, Fields) == es;
    JoinAppend(es[..1], es[1]);
    assert es[..2] == es[..1] + [es[1]];
    JoinAppend(es[..2], es[2]);
    assert es[..3] == es[..2] + [es[2]];
    JoinAppend(es[..3], es[3]);
    assert es[..4] == es[..3] + [es[3]];
    JoinAppend(es[..4], es[4]);
    assert es == es[..4] + [es[4]];
  }

  lemma {:induction false} EntriesIgnoreHidden(root: Json, key: string, fields: seq<Field>)
    requires !Shown(root, key)
    ensures Entries(root, fields) == Entries(root - {key}, fields)
    decreases |fields|
  {
    if fields != [] {
      EntriesIgnoreHidden(root, key, fields[1..]);
      var k := fields[0].key;
      assert Shown(root, k) <==> Shown(root - {key}, k);
      assert Shown(root, k) ==> root[k] == (root - {key})[k];
    }
  }

  /** A field that is absent or blank contributes nothing: the result is the
      same as with that field removed. */
  lemma FormattedIgnoresHidden(root: Json, key: string)
    requires !Shown(root, key)
    ensures Formatted(root) == Formatted(root - {key})
  {
    EntriesIgnoreHidden(root, key, Fields);
  }

  lemma {:induction false} JoinFrame(parts: seq<string>)
    requires parts != []
    ensures |parts[0]| <= |Join(parts)| && Join(parts)[..|parts[0]|] == parts[0]
    ensures |parts[|parts| - 1]| <= |Join(parts)|
    ensures Join(parts)[|Join(parts)| - |parts[|parts| - 1]|..] == parts[|parts| - 1]
    decreases |parts|
  {
    if |parts| > 1 {
      JoinFrame(parts[1..]);
      var last := parts[|parts| - 1];
      assert parts[1..][|parts[1..]| - 1] == last;
      var j := Join(parts[1..]);
      assert Join(parts) == parts[0] + Separator + j;
      assert Join(parts)[|Join(parts)| - |last|..] == j[|j| - |last|..];
    }
  }

  /** Separators stand only between entries: a non-empty result starts
      with the first shown entry and ends with the last one. */
  lemma FormattedFrame(root: Json)
    requires Entries(root, Fields) != []
    ensures var es, r := Entries(root, Fields), Formatted(root);
      && |es[0]| <= |r| && r[..|es[0]|] == es[0]
      && |es[|es| - 1]| <= |r| && r[|r| - |es[|es| - 1]|..] == es[|es| - 1]
  {
    JoinFrame(Entries(root, Fields));
  }

  lemma {:induction false} JoinContains(parts: seq<string>, i: nat)
    requires i < |parts|
    ensures Contains(Join(parts), parts[i])
    decreases |parts|
  {
    if |parts| == 1 {
      ContainsInfix([], parts[0], []);
      assert [] + parts[0] + [] == parts[0];
    } else if i == 0 {
      ContainsInfix([], parts[0], Separator + Join(parts[1..]));
      assert [] + parts[0] + (Separator + Join(parts[1..])) == Join(parts);
    } else {
      JoinContains(parts[1..], i - 1);
      ContainsAfter(parts[0] + Separator, Join(parts[1..]), parts[i]);
      assert Join(parts) == (parts[0] + Separator) + Join(parts[1..]);
    }
  }

  /** Every shown field appears, heading and value, in the result. */
  lemma FormattedShowsField(root: Json, k: nat)
    requires k < |Fields| && Shown(root, Fields[k].key)
    ensures Contains(Formatted(root), Entry(Fields[k].heading, root[Fields[k].key]))
  {
    EntriesAround(root, Fields, k);
    var es := Entries(root, Fields);
    var at := |Entries(root, Fields[..k])|;
    assert es[at] == Entry(Fields[k].heading, root[Fields[k].key]);
    JoinContains(es, at);
  }

  // ---- properties of the priority badge

  /** The badge falls back to `unknown` when the text is null or blank, does
      not parse, or has no priority field. */
  lemma PriorityDefaults(parse: JsonParser, jsonAnalysis: Option<string>)
    requires || jsonAnalysis.None?
             || IsBlank(jsonAnalysis.value)
             || parse(jsonAnalysis.value).None?
             || PriorityKey !in parse(jsonAnalysis.value).value
    ensures ExtractPriority(parse, jsonAnalysis) == UnknownPriority
  {
  }

  /** A present priority is returned lower-cased (even when it is blank). */
  lemma PriorityLowerCased(parse: JsonParser, json: string, root: Json)
    requires !IsBlank(json) && parse(json) == Some(root) && PriorityKey in root
    ensures ExtractPriority(parse, Some(json)) == ToLower(root[PriorityKey])
  {
  }

  /** `HIGH` is shown as `high`. */
  lemma PriorityHigh(parse: JsonParser, json: string, root: Json)
    requires !IsBlank(json) && parse(json) == Some(root) && root[PriorityKey := "HIGH"] == root
    ensures ExtractPriority(parse, Some(json)) == "high"
  {
    assert root[PriorityKey] == "HIGH";
  }
}
