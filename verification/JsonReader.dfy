/** Canonical text is JSON: a reader of RFC 8259 texts (sections 3 to 7, without insignificant
    whitespace) reads back the value that was printed, up to the order of object keys. */
module JsonReader {
  import opened Prelude
  import opened CanonicalJson

  datatype Read<T> = Read(value: T, rest: string)

  function HexValue(c: char): Option<nat> {
    if '0' <= c <= '9' then Some(c as int - '0' as int)
    else if 'a' <= c <= 'f' then Some(10 + (c as int - 'a' as int))
    else if 'A' <= c <= 'F' then Some(10 + (c as int - 'A' as int))
    else None
  }

  /** Four hexadecimal digits that name one character. */
  function ReadCode(t: string): Option<char>
    requires |t| >= 4
  {
    var a, b, c, d := HexValue(t[0]), HexValue(t[1]), HexValue(t[2]), HexValue(t[3]);
    if a.None? || b.None? || c.None? || d.None? then None
    else
      var code := ((a.value * 16 + b.value) * 16 + c.value) * 16 + d.value;
      if 0 <= code < 0xD800 then Some(code as char) else None
  }

  function Unescaped(c: char): Option<char> {
    if c == '"' || c == '\\' || c == '/' then Some(c)
    else if c == 'b' then Some(8 as char)
    else if c == 'f' then Some(12 as char)
    else if c == 'n' then Some('\n')
    else if c == 'r' then Some('\r')
    else if c == 't' then Some('\t')
    else None
  }

  /** One character of a string, escaped or not, and what follows it. */
  function ReadChar(t: string): (r: Option<Read<char>>)
    ensures r.Some? ==> |r.value.rest| < |t|
  {
    if t == "" || t[0] == '"' || t[0] < ' ' then None
    else if t[0] != '\\' then Some(Read(t[0], t[1..]))
    else if |t| >= 6 && t[1] == 'u' then
      var c := ReadCode(t[2..6]);
      if c.None? then None else Some(Read(c.value, t[6..]))
    else if |t| >= 2 && Unescaped(t[1]).Some? then Some(Read(Unescaped(t[1]).value, t[2..]))
    else None
  }

  /** A string after its opening quote. */
  function ReadText(t: string): (r: Option<Read<string>>)
    ensures r.Some? ==> |r.value.rest| < |t|
    decreases |t|
  {
    if t != "" && t[0] == '"' then Some(Read("", t[1..]))
    else
      var first := ReadChar(t);
      if first.None? then None
      else
        var more := ReadText(first.value.rest);
        if more.None? then None else Some(Read([first.value.value] + more.value.value, more.value.rest))
  }

  /** The longest run of number characters. */
  function ReadToken(t: string): (r: Read<string>)
    ensures |r.rest| == |t| - |r.value|
  {
    if t == "" || !NumberChar(t[0]) then Read("", t)
    else
      var more := ReadToken(t[1..]);
      Read([t[0]] + more.value, more.rest)
  }

  predicate StartsWith(t: string, word: string) {
    |word| <= |t| && forall i :: 0 <= i < |word| ==> t[i] == word[i]
  }

  function ReadJson(t: string): (r: Option<Read<Json>>)
    ensures r.Some? ==> |r.value.rest| < |t| && !r.value.value.Undefined?
    decreases |t|, 0
  {
    if StartsWith(t, "null") then Some(Read(Null, t[4..]))
    else if StartsWith(t, "true") then Some(Read(Boolean(true), t[4..]))
    else if StartsWith(t, "false") then Some(Read(Boolean(false), t[5..]))
    else if StartsWith(t, "[]") then Some(Read(List([]), t[2..]))
    else if StartsWith(t, "{}") then Some(Read(Object([]), t[2..]))
    else if StartsWith(t, "\"") then
      var s := ReadText(t[1..]);
      if s.None? then None else Some(Read(Text(s.value.value), s.value.rest))
    else if StartsWith(t, "[") then
      var items := ReadItemList(t[1..]);
      if items.None? then None else Some(Read(List(items.value.value), items.value.rest))
    else if StartsWith(t, "{") then
      var entries := ReadEntryList(t[1..]);
      if entries.None? then None else Some(Read(Object(entries.value.value), entries.value.rest))
    else
      var token := ReadToken(t);
      if token.value == "" then None else Some(Read(Number(token.value), token.rest))
  }

  /** One or more items and the closing bracket. */
  function ReadItemList(t: string): (r: Option<Read<seq<Json>>>)
    ensures r.Some? ==> |r.value.rest| < |t|
    decreases |t|, 1
  {
    var first := ReadJson(t);
    if first.None? then None
    else if StartsWith(first.value.rest, "]") then Some(Read([first.value.value], first.value.rest[1..]))
    else if StartsWith(first.value.rest, ",") then
      var more := ReadItemList(first.value.rest[1..]);
      if more.None? then None else Some(Read([first.value.value] + more.value.value, more.value.rest))
    else None
  }

  function ReadEntry(t: string): (r: Option<Read<Entry>>)
    ensures r.Some? ==> |r.value.rest| < |t| && !r.value.value.value.Undefined?
    decreases |t|, 1
  {
    if !StartsWith(t, "\"") then None
    else
      var key := ReadText(t[1..]);
      if key.None? || !StartsWith(key.value.rest, ":") then None
      else
        var value := ReadJson(key.value.rest[1..]);
        if value.None? then None else Some(Read(Entry(key.value.value, value.value.value), value.value.rest))
  }

  /** One or more entries and the closing brace. */
  function ReadEntryList(t: string): (r: Option<Read<seq<Entry>>>)
    ensures r.Some? ==> |r.value.rest| < |t| && forall i :: 0 <= i < |r.value.value| ==> !r.value.value[i].value.Undefined?
    decreases |t|, 2
  {
    var first := ReadEntry(t);
    if first.None? then None
    else if StartsWith(first.value.rest, "}") then Some(Read([first.value.value], first.value.rest[1..]))
    else if StartsWith(first.value.rest, ",") then
      var more := ReadEntryList(first.value.rest[1..]);
      if more.None? then None else Some(Read([first.value.value] + more.value.value, more.value.rest))
    else None
  }

  // ---------------------------------------------------------------------- strings

  lemma HexReads(n: nat)
    requires n < 16
    ensures HexValue(HexDigit(n)) == Some(n)
  {
  }

  /** An escaped character is read back. */
  lemma CharReads(c: char, x: string)
    ensures ReadChar(Escape(c) + x) == Some(Read(c, x))
    ensures (Escape(c) + x)[0] != '"'
  {
    var t := Escape(c) + x;
    assert t[|Escape(c)|..] == x;
    assert t[0] == Escape(c)[0];
    if |Escape(c)| >= 2 {
      assert t[1] == Escape(c)[1];
    }
    if |Escape(c)| == 6 {
      HexReads(c as int / 16);
      HexReads(c as int % 16);
      assert t[2..6] == Escape(c)[2..6];
      assert Escape(c)[2..6] == ['0', '0', HexDigit(c as int / 16), HexDigit(c as int % 16)];
      assert ReadCode(t[2..6]) == Some(c);
    }
  }

  lemma {:induction false} TextReads(s: string, x: string)
    ensures ReadText(EscapeAll(s) + "\"" + x) == Some(Read(s, x))
    decreases |s|
  {
    hide Escape, ReadChar;
    if s == "" {
      assert (EscapeAll(s) + "\"" + x)[1..] == x;
    } else {
      hide EscapeAll;
      EscapeFirst(s, x);
      CharReads(s[0], EscapeAll(s[1..]) + "\"" + x);
      TextReads(s[1..], x);
      assert s == [s[0]] + s[1..];
    }
  }

  lemma QuotedReads(s: string, x: string)
    ensures StartsWith(Quote(s) + x, "\"") && ReadText((Quote(s) + x)[1..]) == Some(Read(s, x))
  {
    hide EscapeAll, ReadText;
    TextReads(s, x);
    assert (Quote(s) + x)[1..] == EscapeAll(s) + "\"" + x;
    assert (Quote(s) + x)[..1] == "\"";
  }

  lemma {:induction false} TokenReads(token: string, x: string)
    requires (forall i :: 0 <= i < |token| ==> NumberChar(token[i])) && Delimited(x)
    ensures ReadToken(token + x) == Read(token, x)
    decreases |token|
  {
    TokenStops(token, x);
    if token == "" {
      assert token + x == x;
    } else {
      assert (token + x)[1..] == token[1..] + x && (token + x)[0] == token[0];
      TokenReads(token[1..], x);
      assert token == [token[0]] + token[1..];
    }
  }

  // ----------------------------------------------------------------------- values

  lemma WordReads(word: string, x: string)
    ensures StartsWith(word + x, word) && (word + x)[|word|..] == x
  {
  }

  lemma OnlyOne(t: string)
    requires t != "" && t[0] == ','
    ensures !StartsWith(t, "]") && !StartsWith(t, "}")
  {
  }

  /** The first character rules out all other kinds of value. */
  lemma OnlyKind(t: string)
    requires t != ""
    ensures t[0] != 'n' ==> !StartsWith(t, "null")
    ensures t[0] != 't' ==> !StartsWith(t, "true")
    ensures t[0] != 'f' ==> !StartsWith(t, "false")
    ensures t[0] != '[' ==> !StartsWith(t, "[]") && !StartsWith(t, "[")
    ensures t[0] != '{' ==> !StartsWith(t, "{}") && !StartsWith(t, "{")
    ensures t[0] != '"' ==> !StartsWith(t, "\"")
    ensures t[0] == '[' ==> StartsWith(t, "[")
    ensures t[0] == '{' ==> StartsWith(t, "{")
    ensures |t| > 1 && t[0] == '[' && t[1] != ']' ==> !StartsWith(t, "[]")
    ensures |t| > 1 && t[0] == '{' && t[1] != '}' ==> !StartsWith(t, "{}")
  {
  }

  /** Reading canonical text gives back the value, up to the order of object keys and entries that
      stand for nothing, and leaves what follows. */
  lemma {:induction false} CanonicalReads(v: Json, x: string)
    requires Proper(v) && Delimited(x)
    ensures ReadJson(Canonical(v) + x).Some?
    ensures ReadJson(Canonical(v) + x).value.rest == x && Equivalent(v, ReadJson(Canonical(v) + x).value.value)
    decreases v, 3, 0
  {
    hide Sort, Join, EscapeAll, ReadText, ReadItemList, ReadEntryList, Equivalent, StartsWith;
    var t := Canonical(v) + x;
    LeadShows(v, x);
    OnlyKind(t);
    SameScalar(v);
    match v
    case Null => WordReads("null", x);
    case Boolean(b) => WordReads(Canonical(v), x);
    case Number(token) => TokenReads(token, x);
    case Text(s) => QuotedReads(s, x);
    case List(_) => ListReads(v, x);
    case Object(_) => ObjectReads(v, x);
  }

  lemma SameScalar(v: Json)
    ensures !v.List? && !v.Object? ==> Equivalent(v, v)
  {
  }

  lemma {:induction false} ListReads(v: Json, x: string)
    requires Proper(v) && v.List? && Delimited(x)
    ensures ReadJson(Canonical(v) + x).Some?
    ensures ReadJson(Canonical(v) + x).value.rest == x && Equivalent(v, ReadJson(Canonical(v) + x).value.value)
    decreases v, 2, |v.items| + 1
  {
    hide ReadItemList, StartsWith;
    var t, texts := Canonical(v) + x, ItemTexts(v);
    assert t == "[" + (Join(texts) + ("]" + x));
    assert t[1..] == Join(texts) + ("]" + x);
    OnlyKind(t);
    if v.items == [] {
      assert t == "[]" + x;
      WordReads("[]", x);
    } else {
      assert texts[0..] == texts;
      ItemsVisible(v, 0);
      JoinStops(texts, ']', x);
      ItemsRead(v, 0, x);
    }
  }

  lemma {:induction false} ItemsRead(v: Json, k: nat, x: string)
    requires Proper(v) && v.List? && k < |v.items|
    ensures var r := ReadItemList(Join(ItemTexts(v)[k..]) + ("]" + x));
            && r.Some? && r.value.rest == x && |r.value.value| == |v.items| - k
            && forall i :: k <= i < |v.items| ==> Equivalent(v.items[i], r.value.value[i - k])
    decreases v, 2, |v.items| - k
  {
    hide ReadJson, Equivalent, Join;
    var texts := ItemTexts(v)[k..];
    var tail := AfterFirst(texts, "]" + x);
    JoinSplits(texts, "]" + x);
    CanonicalReads(v.items[k], tail);
    if |texts| == 1 {
      WordReads("]", x);
    } else {
      assert tail == "," + (Join(texts[1..]) + ("]" + x));
      WordReads(",", Join(texts[1..]) + ("]" + x));
      OnlyOne(tail);
      assert texts[1..] == ItemTexts(v)[k + 1..];
      ItemsRead(v, k + 1, x);
    }
  }

  lemma {:induction false} ObjectReads(v: Json, x: string)
    requires Proper(v) && v.Object? && Delimited(x)
    ensures ReadJson(Canonical(v) + x).Some?
    ensures ReadJson(Canonical(v) + x).value.rest == x && Equivalent(v, ReadJson(Canonical(v) + x).value.value)
    decreases v, 2, |Sort(Members(v, |v.entries|))| + 1
  {
    hide ReadEntryList, StartsWith, Sort, Rendered, Equivalent, Reads, Visible, MemberText;
    var ms := Sort(Members(v, |v.entries|));
    var t, texts := Canonical(v) + x, MemberTexts(ms);
    MembersRendered(v);
    assert t == "{" + (Join(texts) + ("}" + x));
    assert t[1..] == Join(texts) + ("}" + x);
    OnlyKind(t);
    if ms == [] {
      assert t == "{}" + x;
      WordReads("{}", x);
      NothingRendered(v, ms);
    } else {
      MembersVisible(ms);
      JoinStops(texts, '}', x);
      EntriesRead(v, ms, x);
      MembersEquivalent(v, ms, ReadEntryList(t[1..]).value.value);
    }
  }

  lemma MembersVisible(ms: seq<Member>)
    ensures Visible(MemberTexts(ms))
  {
  }

  lemma NothingRendered(v: Json, ms: seq<Member>)
    requires v.Object? && ms == [] && forall m :: m in ms <==> Rendered(v, m)
    ensures Equivalent(v, Object([]))
  {
    forall i | 0 <= i < |v.entries|
      ensures v.entries[i].value.Undefined?
    {
      var m := Member(v.entries[i].key, Canonical(v.entries[i].value));
      if !v.entries[i].value.Undefined? {
        assert RenderedAt(v, i, m);
        assert Rendered(v, m);
      }
    }
  }

  /** The entry read has the member's key and a value like the one it was printed from. */
  ghost predicate Reads(v: Json, m: Member, e: Entry)
    requires v.Object?
  {
    && e.key == m.key && !e.value.Undefined?
    && forall i :: 0 <= i < |v.entries| && RenderedAt(v, i, m) ==> Equivalent(v.entries[i].value, e.value)
  }

  lemma {:induction false} EntriesRead(v: Json, ms: seq<Member>, x: string)
    requires Proper(v) && v.Object? && ms != [] && forall m :: m in ms ==> Rendered(v, m)
    ensures var r := ReadEntryList(Join(MemberTexts(ms)) + ("}" + x));
            && r.Some? && r.value.rest == x && |r.value.value| == |ms|
            && forall p :: 0 <= p < |ms| ==> Reads(v, ms[p], r.value.value[p])
    decreases v, 2, |ms|
  {
    hide ReadEntry, Join, Rendered, Reads, MemberText;
    var texts := MemberTexts(ms);
    var tail := AfterFirst(texts, "}" + x);
    JoinSplits(texts, "}" + x);
    EntryReads(v, ms[0], tail);
    if |ms| == 1 {
      WordReads("}", x);
    } else {
      assert tail == "," + (Join(texts[1..]) + ("}" + x));
      WordReads(",", Join(texts[1..]) + ("}" + x));
      OnlyOne(tail);
      assert texts[1..] == MemberTexts(ms[1..]);
      EntriesRead(v, ms[1..], x);
      assert ms == [ms[0]] + ms[1..];
    }
  }

  lemma {:induction false} EntryReads(v: Json, m: Member, x: string)
    requires Proper(v) && v.Object? && Rendered(v, m) && Delimited(x)
    ensures var r := ReadEntry(MemberText(m) + x);
            r.Some? && r.value.rest == x && Reads(v, m, r.value.value)
    decreases v, 0, 0
  {
    hide ReadJson, ReadText, Quote, Equivalent, Canonical;
    assert MemberText(m) + x == Quote(m.key) + (":" + (m.text + x));
    QuotedReads(m.key, ":" + (m.text + x));
    WordReads(":", m.text + x);
    var r := ReadEntry(MemberText(m) + x);
    forall i | 0 <= i < |v.entries| && RenderedAt(v, i, m)
      ensures ReadJson(m.text + x).Some? && ReadJson(m.text + x).value.rest == x
      ensures Equivalent(v.entries[i].value, ReadJson(m.text + x).value.value)
    {
      CanonicalReads(v.entries[i].value, x);
    }
  }

  /** Entries read from all members of an object are the object again. */
  lemma MembersEquivalent(v: Json, ms: seq<Member>, entries: seq<Entry>)
    requires v.Object? && |entries| == |ms| && forall m :: m in ms <==> Rendered(v, m)
    requires forall p :: 0 <= p < |ms| ==> Reads(v, ms[p], entries[p])
    ensures Equivalent(v, Object(entries))
  {
    var w := Object(entries);
    forall i | 0 <= i < |v.entries| && !v.entries[i].value.Undefined?
      ensures exists j: nat :: SharesKey(v, i, w, j) && Equivalent(v.entries[i].value, w.entries[j].value)
    {
      var m := Member(v.entries[i].key, Canonical(v.entries[i].value));
      assert RenderedAt(v, i, m);
      assert Rendered(v, m);
      var p: nat :| p < |ms| && ms[p] == m;
      assert Reads(v, ms[p], entries[p]);
      assert SharesKey(v, i, w, p);
    }
    forall j | 0 <= j < |w.entries| && !w.entries[j].value.Undefined?
      ensures exists i: nat :: SharesKey(v, i, w, j)
    {
      assert ms[j] in ms && Reads(v, ms[j], entries[j]);
      var i: nat :| i < |v.entries| && RenderedAt(v, i, ms[j]);
      assert SharesKey(v, i, w, j);
    }
  }

  /** A canonical text on its own is one JSON text for the value it was made from. */
  lemma CanonicalIsJson(v: Json)
    requires Proper(v)
    ensures ReadJson(Canonical(v)).Some?
    ensures ReadJson(Canonical(v)).value.rest == "" && Equivalent(v, ReadJson(Canonical(v)).value.value)
  {
    hide Canonical, ReadJson;
    CanonicalReads(v, "");
    assert Canonical(v) + "" == Canonical(v);
  }
}
