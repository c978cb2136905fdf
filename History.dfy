/**
 * The history log of the writing assistant and the JSON text it is kept
 * under in storage: an array of objects with the keys `prompt`,
 * `writingLevel`, `wordCount`, `generatedText` and `id`, in that order,
 * exactly as `JSON.stringify` writes the entries the component builds.
 */
module History {
  import opened Wrappers
  import opened Scan
  import opened JsonString

  /** The storage key the log is persisted under. */
  const HistoryKey: string := "ai-writing-history"

  /** One completed generation. `id` is the `Date.now()` value at creation. */
  datatype Entry = Entry(prompt: string, writingLevel: string, wordCount: int, generatedText: string, id: int)

  /**
   * The text of `e` followed by `rest`. The keys come in the order the
   * entry object is built, so `JSON.stringify` writes them in that order.
   */
  function EntryText(e: Entry, rest: string): (r: string)
    ensures |r| > |rest| && r[0] == '{'
  {
    "{\"prompt\":" + (Quote(e.prompt)
    + (",\"writingLevel\":" + (Quote(e.writingLevel)
    + (",\"wordCount\":" + (IntToString(e.wordCount)
    + (",\"generatedText\":" + (Quote(e.generatedText)
    + (",\"id\":" + (IntToString(e.id) + ("}" + rest))))))))))
  }

  /** Whether `s` ends with `t`. */
  predicate EndsWith(s: string, t: string) {
    |t| <= |s| && s[|s| - |t|..] == t
  }

  lemma EndsWithPrepend(a: string, s: string, t: string)
    requires EndsWith(s, t)
    ensures EndsWith(a + s, t)
  {
    assert (a + s)[|a + s| - |t|..] == s[|s| - |t|..];
  }

  /** The text of an entry is followed by exactly the given `rest`. */
  lemma EntryTextEndsWith(e: Entry, rest: string)
    ensures EndsWith(EntryText(e, rest), rest)
  {
    var t10 := "}" + rest;
    EndsWithPrepend("}", rest, rest);
    var t9 := IntToString(e.id) + t10;
    EndsWithPrepend(IntToString(e.id), t10, rest);
    var t8 := ",\"id\":" + t9;
    EndsWithPrepend(",\"id\":", t9, rest);
    var t7 := Quote(e.generatedText) + t8;
    EndsWithPrepend(Quote(e.generatedText), t8, rest);
    var t6 := ",\"generatedText\":" + t7;
    EndsWithPrepend(",\"generatedText\":", t7, rest);
    var t5 := IntToString(e.wordCount) + t6;
    EndsWithPrepend(IntToString(e.wordCount), t6, rest);
    var t4 := ",\"wordCount\":" + t5;
    EndsWithPrepend(",\"wordCount\":", t5, rest);
    var t3 := Quote(e.writingLevel) + t4;
    EndsWithPrepend(Quote(e.writingLevel), t4, rest);
    var t2 := ",\"writingLevel\":" + t3;
    EndsWithPrepend(",\"writingLevel\":", t3, rest);
    var t1 := Quote(e.prompt) + t2;
    EndsWithPrepend(Quote(e.prompt), t2, rest);
    EndsWithPrepend("{\"prompt\":", t1, rest);
  }

  /** The elements of a non-empty log separated by commas, then `]` and `rest`. */
  function Elements(h: seq<Entry>, rest: string): (r: string)
    requires |h| > 0
    ensures |r| > |rest| + 1 && r[0] == '{'
  {
    if |h| == 1 then EntryText(h[0], "]" + rest)
    else EntryText(h[0], "," + Elements(h[1..], rest))
  }

  /** `JSON.stringify` of the log. */
  function Serialize(h: seq<Entry>): (r: string)
    ensures |r| >= 2 && r[0] == '['
    ensures r == "[]" <==> h == []
  {
    if h == [] then "[]" else "[" + Elements(h, [])
  }

  function ParseEntry(s: string): (r: Option<(Entry, string)>)
    ensures r.Some? ==> |r.value.1| < |s|
  {
    var s1 :- Expect("{\"prompt\":", s);
    var (prompt, s2) :- ParseString(s1);
    var s3 :- Expect(",\"writingLevel\":", s2);
    var (level, s4) :- ParseString(s3);
    var s5 :- Expect(",\"wordCount\":", s4);
    var (count, s6) :- ParseInt(s5);
    var s7 :- Expect(",\"generatedText\":", s6);
    var (text, s8) :- ParseString(s7);
    var s9 :- Expect(",\"id\":", s8);
    var (id, s10) :- ParseInt(s9);
    var s11 :- Expect("}", s10);
    Some((Entry(prompt, level, count, text, id), s11))
  }

  /** Reads `entry (',' entry)* ']'`, the rest of an array after its `[`. */
  function ParseElements(s: string): (r: Option<(seq<Entry>, string)>)
    ensures r.Some? ==> |r.value.0| > 0 && |r.value.1| < |s|
    decreases |s|
  {
    match ParseEntry(s)
    case None => None
    case Some((e, r)) =>
      if |r| > 0 && r[0] == ']' then Some(([e], r[1..]))
      else if |r| > 0 && r[0] == ',' then
        match ParseElements(r[1..])
        case None => None
        case Some((tail, rest)) => Some(([e] + tail, rest))
      else None
  }

  /**
   * `JSON.parse` of the stored history, for texts in the shape `Serialize` writes: the same key
   * order and no whitespace. `None` for any other text. Within that shape it also reads forms
   * that `Serialize` never writes, such as the escape `\/` or the integer `-0`.
   */
  function Parse(s: string): (r: Option<seq<Entry>>)
    ensures r.Some? ==> |s| >= 2 && s[0] == '['
    ensures r == Some([]) <==> s == "[]"
  {
    if s == "[]" then Some([])
    else if |s| > 0 && s[0] == '[' then
      match ParseElements(s[1..])
      case Some((h, rest)) => if rest == [] then Some(h) else None
      case None => None
    else None
  }

  lemma EntryRoundTrip(e: Entry, rest: string)
    ensures ParseEntry(EntryText(e, rest)) == Some((e, rest))
  {
    var t10 := "}" + rest;
    var t9 := IntToString(e.id) + t10;
    var t8 := ",\"id\":" + t9;
    var t7 := Quote(e.generatedText) + t8;
    var t6 := ",\"generatedText\":" + t7;
    var t5 := IntToString(e.wordCount) + t6;
    var t4 := ",\"wordCount\":" + t5;
    var t3 := Quote(e.writingLevel) + t4;
    var t2 := ",\"writingLevel\":" + t3;
    var t1 := Quote(e.prompt) + t2;
    ExpectPrefix("{\"prompt\":", t1);
    StringRoundTrip(e.prompt, t2);
    ExpectPrefix(",\"writingLevel\":", t3);
    StringRoundTrip(e.writingLevel, t4);
    ExpectPrefix(",\"wordCount\":", t5);
    IntRoundTrip(e.wordCount, t6);
    ExpectPrefix(",\"generatedText\":", t7);
    StringRoundTrip(e.generatedText, t8);
    ExpectPrefix(",\"id\":", t9);
    IntRoundTrip(e.id, t10);
    ExpectPrefix("}", rest);
  }

  lemma LastElementRoundTrip(e: Entry, rest: string)
    ensures ParseElements(EntryText(e, "]" + rest)) == Some(([e], rest))
  {
    EntryRoundTrip(e, "]" + rest);
  }

  /** An entry followed by a comma and more elements reads as one more element. */
  lemma ParseElementsCons(s: string, e: Entry, t: string, tail: seq<Entry>, rest: string)
    requires ParseEntry(s) == Some((e, "," + t))
    requires ParseElements(t) == Some((tail, rest))
    ensures ParseElements(s) == Some(([e] + tail, rest))
  {
    assert ("," + t)[1..] == t;
  }

  lemma HeadTail(h: seq<Entry>)
    requires |h| > 0
    ensures [h[0]] + h[1..] == h
  {
  }

  lemma ElementsStep(h: seq<Entry>, rest: string)
    requires |h| > 1
    requires ParseElements(Elements(h[1..], rest)) == Some((h[1..], rest))
    ensures ParseElements(Elements(h, rest)) == Some((h, rest))
  {
    var t := Elements(h[1..], rest);
    var s := EntryText(h[0], "," + t);
    assert Elements(h, rest) == s;
    EntryRoundTrip(h[0], "," + t);
    ParseElementsCons(s, h[0], t, h[1..], rest);
    HeadTail(h);
  }

  lemma {:induction false} ElementsRoundTrip(h: seq<Entry>, rest: string)
    requires |h| > 0
    ensures ParseElements(Elements(h, rest)) == Some((h, rest))
    decreases |h|
  {
    if |h| == 1 {
      LastElementRoundTrip(h[0], rest);
      assert h == [h[0]];
    } else {
      ElementsRoundTrip(h[1..], rest);
      ElementsStep(h, rest);
    }
  }

  /** Reading back what was written gives the same log, in the same order. */
  lemma ParseSerialize(h: seq<Entry>)
    ensures Parse(Serialize(h)) == Some(h)
  {
    if h != [] {
      var s := Serialize(h);
      ElementsRoundTrip(h, []);
      assert s[1..] == Elements(h, []);
      assert s != "[]" by {
        assert s[1] == '{';
      }
    }
  }

  /** Distinct logs are written as distinct texts. */
  lemma SerializeInjective(h1: seq<Entry>, h2: seq<Entry>)
    ensures Serialize(h1) == Serialize(h2) <==> h1 == h2
  {
    ParseSerialize(h1);
    ParseSerialize(h2);
  }
}
