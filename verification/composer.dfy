/** The prompt composer of the page: structured fields and free text turned into one prompt. */
module Composer {
  import opened Wrappers
  import opened Text

  /** The structured ("detail") mode's inputs. */
  datatype Fields = Fields(genre: string, mood: string, instruments: seq<string>, lyrics: string, other: string)

  /** The page opens with every field empty and a single empty instrument slot. */
  const InitialFields := Fields("", "", [""], "", "")

  /** Alert shown when every structured field is empty. */
  const FieldsRequired := "하나 이상의 필드를 입력해주세요."

  /** Alert shown when the free-text box is empty. */
  const PromptRequired := "프롬프트를 입력해주세요."

  /** What the page submits when the transformation service yields no prompt. */
  const TransformFallback := "변환 실패"

  /** Replace the instrument in slot `i` (the slot's input changed). */
  function SetInstrument(xs: seq<string>, i: nat, v: string): (r: seq<string>)
    requires i < |xs|
    ensures |r| == |xs| && r[i] == v
    ensures forall j :: 0 <= j < |xs| && j != i ==> r[j] == xs[j]
  {
    xs[i := v]
  }

  /** Add one more, empty, instrument slot. */
  function AddInstrument(xs: seq<string>): (r: seq<string>)
    ensures |r| == |xs| + 1 && r[|xs|] == ""
    ensures r[..|xs|] == xs
  {
    xs + [""]
  }

  /** `field && `Label: ${field}``: the labelled clause, or a falsy placeholder for an empty field. */
  function Labelled(tag: string, field: string): string {
    if Truthy(field) then tag + field else ""
  }

  /** The Instruments clause: the non-empty slots, in order, joined by ", " (falsy when there are none). */
  function InstrumentsClause(xs: seq<string>): string {
    var named := KeepTruthy(xs);
    if |named| > 0 then "Instruments: " + Join(", ", named) else ""
  }

  /** The five candidate clauses in the page's fixed order, before the falsy ones are filtered out. */
  function Candidates(f: Fields): seq<string> {
    [ Labelled("Genre: ", f.genre),
      Labelled("Mood: ", f.mood),
      InstrumentsClause(f.instruments),
      Labelled("Lyrics: ", f.lyrics),
      Labelled("Other details: ", f.other) ]
  }

  /** The surviving clauses. */
  function Clauses(f: Fields): seq<string> {
    KeepTruthy(Candidates(f))
  }

  /** The detail-mode submit handler: the prompt to generate from, or the alert that stops it. */
  function ComposeFromFields(f: Fields): (r: Result<string, string>)
    ensures r.Failure? ==> r.error == FieldsRequired
    ensures r.Success? ==> Truthy(r.value)
  {
    var parts := Clauses(f);
    if |parts| == 0 then Failure(FieldsRequired) else Success(Join(". ", parts))
  }

  /** What the transformation service's call settles to: rejected (a network failure, or a reply
      that is not JSON), or answered with its `transformed_prompt` field when that is a string. */
  datatype TransformCall = TransformRejected | TransformAnswered(transformed: Option<string>)

  /** What the free-text submit handler does: submit a prompt, alert and stop, or stop silently
      because the awaited transformation rejected and nothing catches it. */
  datatype TextSubmission = Submit(prompt: string) | Refuse(alert: string) | Abandon

  /** The free-text submit handler: an empty box alerts; otherwise the transformation service's answer
      (`call`, an input here) or the fallback text when it has none; a rejected call ends the handler. */
  function ComposeFromText(input: string, call: TransformCall): (r: TextSubmission)
    ensures r.Refuse? <==> input == ""
    ensures r.Refuse? ==> r.alert == PromptRequired
    ensures r.Abandon? <==> input != "" && call.TransformRejected?
    ensures r.Submit? ==> Truthy(r.prompt)
    ensures r.Submit? && call.transformed.Some? && Truthy(call.transformed.value) ==> r.prompt == call.transformed.value
    ensures r.Submit? && (call.transformed.None? || call.transformed.value == "") ==> r.prompt == TransformFallback
  {
    if input == "" then Refuse(PromptRequired)
    else
      match call
      case TransformRejected => Abandon
      case TransformAnswered(Some(t)) => if Truthy(t) then Submit(t) else Submit(TransformFallback)
      case TransformAnswered(None) => Submit(TransformFallback)
  }

  // ---- Reference description of the clauses -------------------------------------------------

  /** A clause that appears only when its field is non-empty. */
  function Optional(tag: string, field: string): seq<string> {
    if field == "" then [] else [tag + field]
  }

  /** Some instrument slot is non-empty. */
  predicate AnyInstrument(xs: seq<string>) {
    exists i :: 0 <= i < |xs| && xs[i] != ""
  }

  /** At least one structured field is non-empty. */
  predicate AnyField(f: Fields) {
    f.genre != "" || f.mood != "" || AnyInstrument(f.instruments) || f.lyrics != "" || f.other != ""
  }

  /** The instruments clause, when present, names exactly the non-empty slots in order. */
  lemma InstrumentsClauseSpec(xs: seq<string>)
    ensures InstrumentsClause(xs) == "" <==> !AnyInstrument(xs)
    ensures AnyInstrument(xs) ==> InstrumentsClause(xs) == "Instruments: " + Join(", ", KeepTruthy(xs))
  {
    KeepTruthyEmpty(xs);
  }

  /** Filtering the five candidates filters each one in place. */
  lemma KeepTruthyFive(a: string, b: string, c: string, d: string, e: string)
    ensures KeepTruthy([a, b, c, d, e])
         == KeepTruthy([a]) + KeepTruthy([b]) + KeepTruthy([c]) + KeepTruthy([d]) + KeepTruthy([e])
  {
    assert [a, b, c, d, e] == [a] + [b] + [c] + [d] + [e];
    KeepTruthyAppend([a] + [b] + [c] + [d], [e]);
    KeepTruthyAppend([a] + [b] + [c], [d]);
    KeepTruthyAppend([a] + [b], [c]);
    KeepTruthyAppend([a], [b]);
  }

  /** A labelled candidate survives the filter exactly when its field is non-empty. */
  lemma LabelledSurvives(tag: string, field: string)
    requires tag != ""
    ensures KeepTruthy([Labelled(tag, field)]) == Optional(tag, field)
  {
    KeepTruthySingle(Labelled(tag, field));
  }

  /** The surviving clauses are exactly the non-empty fields' clauses, in the order
      Genre, Mood, Instruments, Lyrics, Other details. */
  lemma ClausesSpec(f: Fields)
    ensures Clauses(f) ==
      Optional("Genre: ", f.genre) + Optional("Mood: ", f.mood)
      + (if AnyInstrument(f.instruments) then ["Instruments: " + Join(", ", KeepTruthy(f.instruments))] else [])
      + Optional("Lyrics: ", f.lyrics) + Optional("Other details: ", f.other)
  {
    var ic := InstrumentsClause(f.instruments);
    KeepTruthyFive(Labelled("Genre: ", f.genre), Labelled("Mood: ", f.mood), ic,
                   Labelled("Lyrics: ", f.lyrics), Labelled("Other details: ", f.other));
    LabelledSurvives("Genre: ", f.genre);
    LabelledSurvives("Mood: ", f.mood);
    LabelledSurvives("Lyrics: ", f.lyrics);
    LabelledSurvives("Other details: ", f.other);
    InstrumentsClauseSpec(f.instruments);
    KeepTruthySingle(ic);
  }

  /** A prompt is composed exactly when some field is non-empty; otherwise the alert is raised and
      nothing is submitted. */
  lemma ComposeSucceedsIff(f: Fields)
    ensures ComposeFromFields(f).Success? <==> AnyField(f)
  {
    ClausesSpec(f);
  }

  /** The page's starting state has nothing to submit. */
  lemma InitialFieldsRefused()
    ensures ComposeFromFields(InitialFields) == Failure(FieldsRequired)
  {
    ComposeSucceedsIff(InitialFields);
  }

  /** The composed prompt is the reference clauses joined by ". ". */
  lemma ComposedPrompt(f: Fields)
    ensures ComposeFromFields(f).Success? ==>
      ComposeFromFields(f).value == Join(". ",
        Optional("Genre: ", f.genre) + Optional("Mood: ", f.mood)
        + (if AnyInstrument(f.instruments) then ["Instruments: " + Join(", ", KeepTruthy(f.instruments))] else [])
        + Optional("Lyrics: ", f.lyrics) + Optional("Other details: ", f.other))
  {
    ClausesSpec(f);
  }

  /** Editing slot `i` changes the named instruments only at that slot's place in the order. */
  lemma SetInstrumentNamed(xs: seq<string>, i: nat, v: string)
    requires i < |xs|
    ensures KeepTruthy(SetInstrument(xs, i, v))
         == KeepTruthy(xs[..i]) + (if v == "" then [] else [v]) + KeepTruthy(xs[i + 1..])
  {
    var ys := SetInstrument(xs, i, v);
    assert ys == xs[..i] + [v] + xs[i + 1..];
    KeepTruthyAppend(xs[..i] + [v], xs[i + 1..]);
    KeepTruthyAppend(xs[..i], [v]);
    KeepTruthySingle(v);
  }

  /** An added instrument slot is empty, so it never changes the prompt. */
  lemma AddInstrumentKeepsPrompt(f: Fields)
    ensures ComposeFromFields(f.(instruments := AddInstrument(f.instruments)))
         == ComposeFromFields(f)
  {
    var xs := f.instruments;
    KeepTruthyAppend(xs, [""]);
    KeepTruthySingle("");
    assert KeepTruthy(AddInstrument(xs)) == KeepTruthy(xs);
    assert InstrumentsClause(AddInstrument(xs)) == InstrumentsClause(xs);
    assert Candidates(f.(instruments := AddInstrument(xs))) == Candidates(f);
  }
}
