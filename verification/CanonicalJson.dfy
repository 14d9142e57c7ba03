/** canonicalJson and idempotencyKey of src/store/receipts.ts: two values get the same text
    exactly when they are equal up to the order of object keys. */
module CanonicalJson {
  import opened Prelude

  /** A JavaScript value as canonicalJson sees it. A number is given by the text JSON.stringify
      prints for it; Undefined may stand for an absent object entry. An object's entries are in
      insertion order. */
  datatype Json =
    | Null
    | Boolean(b: bool)
    | Number(text: string)
    | Text(s: string)
    | List(items: seq<Json>)
    | Object(entries: seq<Entry>)
    | Undefined

  datatype Entry = Entry(key: string, value: Json)

  // ------------------------------------------------------------------------ strings

  function HexDigit(n: nat): char
    requires n < 16
  {
    "0123456789abcdef"[n]
  }

  lemma HexUnique(m: nat, n: nat)
    requires m < 16 && n < 16 && HexDigit(m) == HexDigit(n)
    ensures m == n
  {
  }

  /** JSON.stringify's escape of one character. */
  function Escape(c: char): string {
    if c == '"' then ['\\', '"']
    else if c == '\\' then ['\\', '\\']
    else if c == '\n' then ['\\', 'n']
    else if c == '\r' then ['\\', 'r']
    else if c == '\t' then ['\\', 't']
    else if c as int == 8 then ['\\', 'b']
    else if c as int == 12 then ['\\', 'f']
    else if c < ' ' then ['\\', 'u', '0', '0', HexDigit(c as int / 16), HexDigit(c as int % 16)]
    else [c]
  }

  function EscapeAll(s: string): string { if s == "" then "" else Escape(s[0]) + EscapeAll(s[1..]) }

  function Quote(s: string): string { "\"" + EscapeAll(s) + "\"" }

  /** The text up to and including the closing quote determines the string. */
  lemma {:induction false} QuoteUnique(s: string, s': string, x: string, y: string)
    requires EscapeAll(s) + "\"" + x == EscapeAll(s') + "\"" + y
    ensures s == s' && x == y
    decreases |s| + |s'|
  {
    if s == "" || s' == "" {
      QuoteEnds(s, s', x, y);
    } else {
      hide Escape, EscapeAll;
      var a, b := EscapeAll(s[1..]) + "\"" + x, EscapeAll(s'[1..]) + "\"" + y;
      EscapeFirst(s, x);
      EscapeFirst(s', y);
      EscapeUnique(s[0], s'[0], a, b);
      QuoteUnique(s[1..], s'[1..], x, y);
    }
  }

  lemma EscapeFirst(s: string, x: string)
    requires s != ""
    ensures EscapeAll(s) + "\"" + x == Escape(s[0]) + (EscapeAll(s[1..]) + "\"" + x)
  {
  }

  lemma QuoteStops(s: string, x: string)
    ensures (EscapeAll(s) + "\"" + x)[0] == '"' <==> s == ""
  {
    if s != "" {
      assert (EscapeAll(s) + "\"" + x)[0] == Escape(s[0])[0];
    }
  }

  lemma QuoteEnds(s: string, s': string, x: string, y: string)
    requires EscapeAll(s) + "\"" + x == EscapeAll(s') + "\"" + y
    requires s == "" || s' == ""
    ensures s == s' && x == y
  {
    QuoteStops(s, x);
    QuoteStops(s', y);
    assert (EscapeAll(s) + "\"" + x)[1..] == x && (EscapeAll(s') + "\"" + y)[1..] == y;
  }

  lemma EscapeUnique(c: char, d: char, x: string, y: string)
    requires Escape(c) + x == Escape(d) + y
    ensures c == d && x == y
  {
    hide Escape;
    EscapeShape(c);
    EscapeShape(d);
    var l, r := Escape(c) + x, Escape(d) + y;
    assert l[0] == Escape(c)[0] && r[0] == Escape(d)[0];
    if |Escape(c)| > 1 && |Escape(d)| > 1 {
      assert l[1] == Escape(c)[1] && r[1] == Escape(d)[1];
    }
    assert |Escape(c)| == |Escape(d)|;
    assert Escape(c) == l[..|Escape(c)|] && Escape(d) == r[..|Escape(d)|];
    assert x == l[|Escape(c)|..] && y == r[|Escape(d)|..];
    EscapeInjective(c, d);
  }

  /** The first two characters of an escape tell its length. */
  lemma EscapeShape(c: char)
    ensures |Escape(c)| == 1 || |Escape(c)| == 2 || |Escape(c)| == 6
    ensures |Escape(c)| == 1 <==> Escape(c)[0] != '\\'
    ensures |Escape(c)| == 6 <==> |Escape(c)| > 1 && Escape(c)[1] == 'u'
  {
  }

  lemma EscapeInjective(c: char, d: char)
    requires Escape(c) == Escape(d)
    ensures c == d
  {
    EscapeShape(c);
    if |Escape(c)| == 6 {
      assert Escape(c)[4] == Escape(d)[4] && Escape(c)[5] == Escape(d)[5];
      HexUnique(c as int / 16, d as int / 16);
      HexUnique(c as int % 16, d as int % 16);
    } else {
      assert Escape(c)[|Escape(c)| - 1] == Escape(d)[|Escape(c)| - 1];
    }
  }

  // -------------------------------------------------------------------- sorted members

  /** Key order: lexicographic by character. */
  predicate Less(a: string, b: string) {
    b != "" && (a == "" || a[0] < b[0] || (a[0] == b[0] && Less(a[1..], b[1..])))
  }

  lemma {:induction false} LessTrichotomy(a: string, b: string)
    ensures a == b || Less(a, b) || Less(b, a)
    ensures !(Less(a, b) && Less(b, a)) && !Less(a, a)
    decreases |a|
  {
    if a != "" && b != "" {
      LessTrichotomy(a[1..], b[1..]);
      assert a == [a[0]] + a[1..] && b == [b[0]] + b[1..];
    }
    if a != "" {
      LessTrichotomy(a[1..], a[1..]);
    }
  }

  lemma {:induction false} LessTransitive(a: string, b: string, c: string)
    requires Less(a, b) && Less(b, c)
    ensures Less(a, c)
    decreases |a|
  {
    if a != "" && a[0] == b[0] == c[0] {
      LessTransitive(a[1..], b[1..], c[1..]);
    }
  }

  /** One rendered object entry. */
  datatype Member = Member(key: string, text: string)

  ghost predicate Sorted(ms: seq<Member>)
  {
    forall i, j :: 0 <= i < j < |ms| ==> Less(ms[i].key, ms[j].key)
  }

  ghost predicate DistinctMembers(ms: seq<Member>)
  {
    forall i, j :: 0 <= i < j < |ms| ==> ms[i].key != ms[j].key
  }

  function Insert(m: Member, ms: seq<Member>): (out: seq<Member>)
    ensures multiset(out) == multiset(ms) + multiset{m}
    ensures forall x :: x in out <==> x in ms || x == m
    ensures Sorted(ms) && (forall x :: x in ms ==> x.key != m.key) ==> Sorted(out)
  {
    if ms == [] then [m]
    else if Less(m.key, ms[0].key) then
      InsertFirst(m, ms);
      [m] + ms
    else
      var rest := Insert(m, ms[1..]);
      InsertLater(m, ms, rest);
      [ms[0]] + rest
  }

  lemma InsertFirst(m: Member, ms: seq<Member>)
    requires ms != [] && Less(m.key, ms[0].key)
    ensures Sorted(ms) ==> Sorted([m] + ms)
  {
    if Sorted(ms) {
      forall j | 0 < j < |ms|
        ensures Less(m.key, ms[j].key)
      {
        LessTransitive(m.key, ms[0].key, ms[j].key);
      }
    }
  }

  lemma InsertLater(m: Member, ms: seq<Member>, rest: seq<Member>)
    requires ms != [] && !Less(m.key, ms[0].key)
    requires forall x :: x in rest <==> x in ms[1..] || x == m
    requires multiset(rest) == multiset(ms[1..]) + multiset{m}
    ensures multiset([ms[0]] + rest) == multiset(ms) + multiset{m}
    ensures Sorted(ms) && Sorted(rest) && (forall x :: x in ms ==> x.key != m.key) ==> Sorted([ms[0]] + rest)
    ensures forall x :: x in [ms[0]] + rest <==> x in ms || x == m
  {
    assert ms == [ms[0]] + ms[1..];
    LessTrichotomy(m.key, ms[0].key);
    if Sorted(ms) && Sorted(rest) && (forall x :: x in ms ==> x.key != m.key) {
      forall j | 0 <= j < |rest|
        ensures Less(ms[0].key, rest[j].key)
      {
        assert rest[j] in rest;
        if rest[j] != m {
          var k :| 0 <= k < |ms[1..]| && ms[1..][k] == rest[j];
          assert ms[k + 1] == rest[j];
        } else {
          assert ms[0] in ms;
        }
      }
    }
  }

  function Sort(ms: seq<Member>): (out: seq<Member>)
    ensures forall x :: x in out <==> x in ms
    ensures DistinctMembers(ms) ==> Sorted(out)
  {
    if ms == [] then []
    else
      assert ms == [ms[0]] + ms[1..];
      assert DistinctMembers(ms) ==> forall x :: x in ms[1..] ==> x.key != ms[0].key;
      Insert(ms[0], Sort(ms[1..]))
  }

  /** A sorted sequence is determined by its elements. */
  lemma {:induction false} SortedUnique(a: seq<Member>, b: seq<Member>)
    requires Sorted(a) && Sorted(b) && forall x :: x in a <==> x in b
    ensures a == b
    decreases |a|
  {
    HeadBelongs(a);
    HeadBelongs(b);
    if a != [] {
      SmallestFirst(a, b);
      forall x
        ensures x in a[1..] <==> x in b[1..]
      {
        TailMembers(a, x);
        TailMembers(b, x);
      }
      SortedUnique(a[1..], b[1..]);
      assert a == [a[0]] + a[1..] && b == [b[0]] + b[1..];
    }
  }

  lemma HeadBelongs(a: seq<Member>)
    ensures a == [] || a[0] in a
  {
  }

  lemma SmallestFirst(a: seq<Member>, b: seq<Member>)
    requires Sorted(a) && Sorted(b) && a != [] && b != [] && a[0] in b && b[0] in a
    ensures a[0] == b[0]
  {
    var i :| 0 <= i < |b| && b[i] == a[0];
    var j :| 0 <= j < |a| && a[j] == b[0];
    LessTrichotomy(a[0].key, b[0].key);
  }

  lemma TailMembers(a: seq<Member>, x: Member)
    requires Sorted(a) && a != []
    ensures x in a[1..] <==> x in a && x != a[0]
  {
    LessTrichotomy(a[0].key, a[0].key);
    assert a == [a[0]] + a[1..];
    if x in a[1..] {
      var k :| 0 <= k < |a[1..]| && a[1..][k] == x;
      assert a[k + 1] == x;
    }
  }

  // -------------------------------------------------------------------------- printing

  function Join(texts: seq<string>): string {
    if texts == [] then ""
    else if |texts| == 1 then texts[0]
    else texts[0] + "," + Join(texts[1..])
  }

  function MemberText(m: Member): string { Quote(m.key) + ":" + m.text }

  function MemberTexts(ms: seq<Member>): (ts: seq<string>)
    ensures |ts| == |ms| && forall i :: 0 <= i < |ms| ==> ts[i] == MemberText(ms[i])
  {
    seq(|ms|, i requires 0 <= i < |ms| => MemberText(ms[i]))
  }

  /** The source's printer; an undefined list item joins as nothing. */
  function Canonical(v: Json): string
    decreases v, 2, 0
  {
    match v
    case Null => "null"
    case Boolean(b) => if b then "true" else "false"
    case Number(text) => text
    case Text(s) => Quote(s)
    case List(items) => "[" + Join(ItemTexts(v)) + "]"
    case Object(entries) => "{" + Join(MemberTexts(Sort(Members(v, |entries|)))) + "}"
    case Undefined => ""
  }

  function ItemTexts(v: Json): (ts: seq<string>)
    requires v.List?
    ensures |ts| == |v.items| && forall i :: 0 <= i < |ts| ==> ts[i] == Canonical(v.items[i])
    decreases v, 1, 0
  {
    seq(|v.items|, i requires 0 <= i < |v.items| => Canonical(v.items[i]))
  }

  /** The defined entries among the first n, rendered. */
  function Members(v: Json, n: nat): seq<Member>
    requires v.Object? && n <= |v.entries|
    decreases v, 1, n
  {
    if n == 0 then []
    else
      var e := v.entries[n - 1];
      assert e.value < v;
      Members(v, n - 1) + (if e.value.Undefined? then [] else [Member(e.key, Canonical(e.value))])
  }

  // -------------------------------------------------------------- values and equality

  predicate NumberChar(c: char) { '0' <= c <= '9' || c == '-' || c == '+' || c == '.' || c == 'e' }

  /** A finite number's text. */
  predicate NumberText(t: string) {
    |t| > 0 && ('0' <= t[0] <= '9' || t[0] == '-') && forall i :: 0 <= i < |t| ==> NumberChar(t[i])
  }

  predicate DistinctKeys(entries: seq<Entry>) {
    forall i, j :: 0 <= i < j < |entries| ==> entries[i].key != entries[j].key
  }

  /** A JSON value: finite numbers, unique keys, nothing undefined except as an object entry. */
  ghost predicate Proper(v: Json)
    decreases v
  {
    match v
    case Number(text) => NumberText(text)
    case List(items) => forall i :: 0 <= i < |items| ==> Proper(items[i])
    case Object(entries) =>
      && DistinctKeys(entries)
      && forall i :: 0 <= i < |entries| ==> entries[i].value.Undefined? || Proper(entries[i].value)
    case Undefined => false
    case _ => true
  }

  /** Object v has entry i defined under the key of w's entry j. */
  predicate SharesKey(v: Json, i: nat, w: Json, j: nat)
    requires v.Object? && w.Object?
  {
    && i < |v.entries| && j < |w.entries|
    && !v.entries[i].value.Undefined? && !w.entries[j].value.Undefined?
    && v.entries[i].key == w.entries[j].key
  }

  /** Equal up to the order of object keys. */
  ghost predicate Equivalent(v: Json, w: Json)
    decreases v
  {
    match v
    case List(items) =>
      w.List? && |w.items| == |items| && forall i :: 0 <= i < |items| ==> Equivalent(items[i], w.items[i])
    case Object(entries) =>
      && w.Object?
      && (forall i :: 0 <= i < |entries| && !entries[i].value.Undefined? ==>
            exists j: nat :: SharesKey(v, i, w, j) && Equivalent(entries[i].value, w.entries[j].value))
      && (forall j :: 0 <= j < |w.entries| && !w.entries[j].value.Undefined? ==>
            exists i: nat :: SharesKey(v, i, w, j))
    case _ => v == w
  }

  // -------------------------------------------------------------------- unique reading

  /** What may follow a value inside a list or object. */
  predicate Delimited(x: string) { x == "" || x[0] == ',' || x[0] == ']' || x[0] == '}' }

  /** The first character tells the kind of value. */
  function Lead(v: Json): int {
    match v
    case Null => 0
    case Boolean(b) => if b then 1 else 2
    case Number(_) => 3
    case Text(_) => 4
    case List(_) => 5
    case Object(_) => 6
    case Undefined => 7
  }

  function KindOf(c: char): int {
    if c == 'n' then 0 else if c == 't' then 1 else if c == 'f' then 2
    else if '0' <= c <= '9' || c == '-' then 3
    else if c == '"' then 4 else if c == '[' then 5 else if c == '{' then 6 else 7
  }

  lemma LeadShows(v: Json, x: string)
    requires Proper(v)
    ensures |Canonical(v)| > 0 && |Canonical(v) + x| > 0 && KindOf((Canonical(v) + x)[0]) == Lead(v)
    ensures (Canonical(v) + x)[0] == Canonical(v)[0]
    ensures Canonical(v)[0] != ']' && Canonical(v)[0] != '}' && Canonical(v)[0] != ','
  {
  }

  lemma TokenStops(t: string, x: string)
    requires (forall i :: 0 <= i < |t| ==> NumberChar(t[i])) && Delimited(x)
    ensures t + x != "" && NumberChar((t + x)[0]) <==> t != ""
  {
    if t != "" {
      assert (t + x)[0] == t[0];
    } else {
      assert t + x == x;
    }
  }

  lemma {:induction false} NumberUnique(t: string, u: string, x: string, y: string)
    requires forall i :: 0 <= i < |t| ==> NumberChar(t[i])
    requires forall i :: 0 <= i < |u| ==> NumberChar(u[i])
    requires Delimited(x) && Delimited(y) && t + x == u + y
    ensures t == u && x == y
    decreases |t|
  {
    TokenStops(t, x);
    TokenStops(u, y);
    if t == "" {
      assert t + x == x && u + y == y;
    } else {
      assert t[0] == (t + x)[0] && u[0] == (u + y)[0];
      assert t[1..] + x == (t + x)[1..] && u[1..] + y == (u + y)[1..];
      NumberUnique(t[1..], u[1..], x, y);
      assert t == [t[0]] + t[1..] && u == [u[0]] + u[1..];
    }
  }

  // ---- joined texts

  /** No text is empty or starts like the end of a list or object. */
  ghost predicate Visible(texts: seq<string>)
  {
    forall i :: 0 <= i < |texts| ==> |texts[i]| > 0 && texts[i][0] != ']' && texts[i][0] != '}'
  }

  /** What follows the first of several joined texts. */
  function AfterFirst(texts: seq<string>, x: string): string
    requires texts != []
  {
    if |texts| == 1 then x else "," + Join(texts[1..]) + x
  }

  lemma JoinSplits(texts: seq<string>, x: string)
    requires texts != []
    ensures Join(texts) + x == texts[0] + AfterFirst(texts, x)
  {
    if |texts| > 1 {
      assert texts[0] + "," + Join(texts[1..]) + x == texts[0] + ("," + Join(texts[1..]) + x);
    }
  }

  lemma JoinStops(texts: seq<string>, close: char, x: string)
    requires Visible(texts) && (close == ']' || close == '}')
    ensures (Join(texts) + ([close] + x))[0] == close <==> texts == []
  {
    if texts != [] {
      JoinSplits(texts, [close] + x);
      assert (Join(texts) + ([close] + x))[0] == texts[0][0];
    } else {
      assert Join(texts) + ([close] + x) == [close] + x;
    }
  }

  /** Equal tails after the first text: both lists go on, or both end. */
  lemma TailsAgree(ts: seq<string>, us: seq<string>, close: char, x: string, y: string)
    requires ts != [] && us != [] && (close == ']' || close == '}')
    requires AfterFirst(ts, [close] + x) == AfterFirst(us, [close] + y)
    ensures |ts| == 1 <==> |us| == 1
    ensures Join(ts[1..]) + ([close] + x) == Join(us[1..]) + ([close] + y)
  {
    var l, r := AfterFirst(ts, [close] + x), AfterFirst(us, [close] + y);
    assert l[0] == (if |ts| == 1 then close else ',');
    assert r[0] == (if |us| == 1 then close else ',');
    if |ts| == 1 {
      assert Join(ts[1..]) + ([close] + x) == l && Join(us[1..]) + ([close] + y) == r;
    } else {
      assert Join(ts[1..]) + ([close] + x) == l[1..] && Join(us[1..]) + ([close] + y) == r[1..];
    }
  }

  // ---- values

  /** The member is an entry of the object. */
  ghost predicate Rendered(v: Json, m: Member)
    requires v.Object?
  {
    exists i :: 0 <= i < |v.entries| && RenderedAt(v, i, m)
  }

  ghost predicate RenderedAt(v: Json, i: nat, m: Member)
    requires v.Object? && i < |v.entries|
  {
    !v.entries[i].value.Undefined? && v.entries[i].key == m.key && Canonical(v.entries[i].value) == m.text
  }

  /** A value's text ends where a delimiter begins: it can be read back in only one way. */
  lemma {:induction false} ReadValue(v: Json, w: Json, x: string, y: string)
    requires Proper(v) && Proper(w) && Delimited(x) && Delimited(y)
    requires Canonical(v) + x == Canonical(w) + y
    ensures Canonical(v) == Canonical(w) && x == y
    decreases v, 3, 0
  {
    hide Less, Sort, EscapeAll, Join;
    LeadShows(v, x);
    LeadShows(w, y);
    match v
    case Null => SameTail("null", x, y);
    case Boolean(b) => SameTail(Canonical(v), x, y);
    case Number(text) => NumberUnique(text, w.text, x, y);
    case Text(s) => QuotedUnique(s, w.s, x, y);
    case List(_) =>
      Unwrap('[', Join(ItemTexts(v)), Join(ItemTexts(w)), ']', x, y);
      assert ItemTexts(v)[0..] == ItemTexts(v) && ItemTexts(w)[0..] == ItemTexts(w);
      ReadItems(v, w, 0, 0, x, y);
    case Object(_) => ReadObject(v, w, x, y);
  }

  lemma SameTail(a: string, x: string, y: string)
    requires a + x == a + y
    ensures x == y
  {
    assert (a + x)[|a|..] == x && (a + y)[|a|..] == y;
  }

  lemma Unwrap(open: char, a: string, b: string, close: char, x: string, y: string)
    requires [open] + a + [close] + x == [open] + b + [close] + y
    ensures a + ([close] + x) == b + ([close] + y)
  {
    assert ([open] + a + [close] + x)[1..] == a + ([close] + x);
    assert ([open] + b + [close] + y)[1..] == b + ([close] + y);
  }

  lemma QuotedUnique(s: string, s': string, x: string, y: string)
    requires Quote(s) + x == Quote(s') + y
    ensures s == s' && x == y
  {
    hide EscapeAll;
    Unwrap('"', EscapeAll(s), EscapeAll(s'), '"', x, y);
    assert EscapeAll(s) + (['"'] + x) == EscapeAll(s) + "\"" + x;
    assert EscapeAll(s') + (['"'] + y) == EscapeAll(s') + "\"" + y;
    QuoteUnique(s, s', x, y);
  }

  lemma {:induction false} ReadObject(v: Json, w: Json, x: string, y: string)
    requires Proper(v) && Proper(w) && v.Object? && w.Object?
    requires Canonical(v) + x == Canonical(w) + y
    ensures Sort(Members(v, |v.entries|)) == Sort(Members(w, |w.entries|)) && x == y
    ensures Canonical(v) == Canonical(w)
    decreases v, 2, |Sort(Members(v, |v.entries|))| + 1
  {
    hide Sort, Join, Rendered;
    var ms, ns := Sort(Members(v, |v.entries|)), Sort(Members(w, |w.entries|));
    MembersRendered(v);
    MembersRendered(w);
    Unwrap('{', Join(MemberTexts(ms)), Join(MemberTexts(ns)), '}', x, y);
    ReadMembers(v, w, ms, ns, x, y);
  }

  lemma {:induction false} ReadItems(v: Json, w: Json, k: nat, l: nat, x: string, y: string)
    requires Proper(v) && Proper(w) && v.List? && w.List? && k <= |v.items| && l <= |w.items|
    requires Join(ItemTexts(v)[k..]) + ([']'] + x) == Join(ItemTexts(w)[l..]) + ([']'] + y)
    ensures ItemTexts(v)[k..] == ItemTexts(w)[l..] && x == y
    decreases v, 2, |v.items| - k
  {
    var ts, us := ItemTexts(v)[k..], ItemTexts(w)[l..];
    ItemsVisible(v, k);
    ItemsVisible(w, l);
    JoinStops(ts, ']', x);
    JoinStops(us, ']', y);
    if ts == [] {
      assert (Join(ts) + ([']'] + x))[1..] == x && (Join(us) + ([']'] + y))[1..] == y;
    } else {
      JoinSplits(ts, [']'] + x);
      JoinSplits(us, [']'] + y);
      ReadValue(v.items[k], w.items[l], AfterFirst(ts, [']'] + x), AfterFirst(us, [']'] + y));
      TailsAgree(ts, us, ']', x, y);
      assert ts[1..] == ItemTexts(v)[k + 1..] && us[1..] == ItemTexts(w)[l + 1..];
      ReadItems(v, w, k + 1, l + 1, x, y);
      assert ts == [ts[0]] + ts[1..] && us == [us[0]] + us[1..];
    }
  }

  lemma ItemsVisible(v: Json, k: nat)
    requires Proper(v) && v.List? && k <= |v.items|
    ensures Visible(ItemTexts(v)[k..])
  {
    forall i | 0 <= i < |ItemTexts(v)[k..]|
      ensures |ItemTexts(v)[k..][i]| > 0 && ItemTexts(v)[k..][i][0] != ']' && ItemTexts(v)[k..][i][0] != '}'
    {
      LeadShows(v.items[k + i], "");
    }
  }

  lemma {:induction false} MembersExact(v: Json, n: nat)
    requires v.Object? && n <= |v.entries|
    ensures forall m :: m in Members(v, n) <==> exists i :: 0 <= i < n && RenderedAt(v, i, m)
    decreases n
  {
    if n > 0 {
      MembersExact(v, n - 1);
      var e := v.entries[n - 1];
      forall m
        ensures m in Members(v, n) <==> exists i :: 0 <= i < n && RenderedAt(v, i, m)
      {
        assert m in Members(v, n) <==> m in Members(v, n - 1) || RenderedAt(v, n - 1, m);
      }
    }
  }

  lemma MembersRendered(v: Json)
    requires v.Object?
    ensures forall m :: m in Sort(Members(v, |v.entries|)) <==> Rendered(v, m)
  {
    MembersExact(v, |v.entries|);
  }

  lemma {:induction false} ReadMembers(v: Json, w: Json, ms: seq<Member>, ns: seq<Member>, x: string, y: string)
    requires Proper(v) && Proper(w) && v.Object? && w.Object?
    requires forall m :: m in ms ==> Rendered(v, m)
    requires forall n :: n in ns ==> Rendered(w, n)
    requires Join(MemberTexts(ms)) + (['}'] + x) == Join(MemberTexts(ns)) + (['}'] + y)
    ensures ms == ns && x == y
    decreases v, 2, |ms|
  {
    var ts, us := MemberTexts(ms), MemberTexts(ns);
    assert Visible(ts) && Visible(us);
    JoinStops(ts, '}', x);
    JoinStops(us, '}', y);
    if ms == [] {
      assert (Join(ts) + (['}'] + x))[1..] == x && (Join(us) + (['}'] + y))[1..] == y;
    } else {
      var a, b := AfterFirst(ts, ['}'] + x), AfterFirst(us, ['}'] + y);
      JoinSplits(ts, ['}'] + x);
      JoinSplits(us, ['}'] + y);
      ReadMember(v, w, ms[0], ns[0], a, b);
      TailsAgree(ts, us, '}', x, y);
      assert ts[1..] == MemberTexts(ms[1..]) && us[1..] == MemberTexts(ns[1..]);
      ReadMembers(v, w, ms[1..], ns[1..], x, y);
      assert ms == [ms[0]] + ms[1..] && ns == [ns[0]] + ns[1..];
    }
  }

  lemma {:induction false} ReadMember(v: Json, w: Json, m: Member, n: Member, a: string, b: string)
    requires Proper(v) && Proper(w) && v.Object? && w.Object? && Rendered(v, m) && Rendered(w, n)
    requires Delimited(a) && Delimited(b) && MemberText(m) + a == MemberText(n) + b
    ensures m == n && a == b
    decreases v, 0, 0
  {
    hide MemberText;
    MemberSplits(m, n, a, b);
    var i :| 0 <= i < |v.entries| && RenderedAt(v, i, m);
    var j :| 0 <= j < |w.entries| && RenderedAt(w, j, n);
    ReadValue(v.entries[i].value, w.entries[j].value, a, b);
  }

  lemma MemberSplits(m: Member, n: Member, a: string, b: string)
    requires MemberText(m) + a == MemberText(n) + b
    ensures m.key == n.key && m.text + a == n.text + b
  {
    hide EscapeAll;
    var p, q := ":" + m.text + a, ":" + n.text + b;
    assert MemberText(m) + a == Quote(m.key) + p;
    assert MemberText(n) + b == Quote(n.key) + q;
    QuotedUnique(m.key, n.key, p, q);
    assert m.text + a == p[1..] && n.text + b == q[1..];
  }

  // ----------------------------------------------------------------- the main theorem

  lemma {:induction false} SameTextIsEquivalent(v: Json, w: Json)
    requires Proper(v) && Proper(w) && Canonical(v) == Canonical(w)
    ensures Equivalent(v, w)
    decreases v
  {
    assert Canonical(v) + "" == Canonical(w) + "";
    LeadShows(v, "");
    LeadShows(w, "");
    match v
    case Text(s) => QuotedUnique(s, w.s, "", "");
    case List(items) =>
      Unwrap('[', Join(ItemTexts(v)), Join(ItemTexts(w)), ']', "", "");
      assert ItemTexts(v)[0..] == ItemTexts(v) && ItemTexts(w)[0..] == ItemTexts(w);
      ReadItems(v, w, 0, 0, "", "");
      forall i | 0 <= i < |items|
        ensures Equivalent(items[i], w.items[i])
      {
        assert ItemTexts(v)[i] == ItemTexts(w)[i];
        SameTextIsEquivalent(items[i], w.items[i]);
      }
    case Object(_) =>
      ReadObject(v, w, "", "");
      MembersRendered(v);
      MembersRendered(w);
      SameMembersEquivalent(v, w);
    case _ =>
  }

  lemma {:induction false} SameMembersEquivalent(v: Json, w: Json)
    requires Proper(v) && Proper(w) && v.Object? && w.Object?
    requires forall m :: Rendered(v, m) <==> Rendered(w, m)
    ensures Equivalent(v, w)
    decreases v, 0
  {
    forall i | 0 <= i < |v.entries| && !v.entries[i].value.Undefined?
      ensures exists j: nat :: SharesKey(v, i, w, j) && Equivalent(v.entries[i].value, w.entries[j].value)
    {
      var j := Counterpart(v, w, i);
      SameTextIsEquivalent(v.entries[i].value, w.entries[j].value);
    }
    forall j | 0 <= j < |w.entries| && !w.entries[j].value.Undefined?
      ensures exists i: nat :: SharesKey(v, i, w, j)
    {
      var i := Counterpart(w, v, j);
      assert SharesKey(v, i, w, j);
    }
  }

  lemma Counterpart(v: Json, w: Json, i: nat) returns (j: nat)
    requires v.Object? && w.Object? && i < |v.entries| && !v.entries[i].value.Undefined?
    requires forall m :: Rendered(v, m) ==> Rendered(w, m)
    ensures SharesKey(v, i, w, j) && Canonical(v.entries[i].value) == Canonical(w.entries[j].value)
  {
    var m := Member(v.entries[i].key, Canonical(v.entries[i].value));
    assert RenderedAt(v, i, m);
    assert Rendered(v, m);
    j :| 0 <= j < |w.entries| && RenderedAt(w, j, m);
  }

  lemma {:induction false} EquivalentHasSameText(v: Json, w: Json)
    requires Proper(v) && Proper(w) && Equivalent(v, w)
    ensures Canonical(v) == Canonical(w)
    decreases v
  {
    match v
    case List(items) =>
      forall i | 0 <= i < |items|
        ensures Canonical(items[i]) == Canonical(w.items[i])
      {
        EquivalentHasSameText(items[i], w.items[i]);
      }
      assert ItemTexts(v) == ItemTexts(w);
    case Object(_) =>
      forall m
        ensures Rendered(v, m) <==> Rendered(w, m)
      {
        if Rendered(v, m) {
          EntryCarries(v, w, m);
        }
        if Rendered(w, m) {
          EntryCarriesBack(v, w, m);
        }
      }
      MembersRendered(v);
      MembersRendered(w);
      MembersDistinct(v, |v.entries|);
      MembersDistinct(w, |w.entries|);
      SortedUnique(Sort(Members(v, |v.entries|)), Sort(Members(w, |w.entries|)));
    case _ =>
  }

  lemma {:induction false} EntryCarries(v: Json, w: Json, m: Member)
    requires Proper(v) && Proper(w) && v.Object? && w.Object? && Equivalent(v, w) && Rendered(v, m)
    ensures Rendered(w, m)
    decreases v, 0
  {
    var i :| 0 <= i < |v.entries| && RenderedAt(v, i, m);
    var j: nat :| SharesKey(v, i, w, j) && Equivalent(v.entries[i].value, w.entries[j].value);
    EquivalentHasSameText(v.entries[i].value, w.entries[j].value);
    assert RenderedAt(w, j, m);
  }

  lemma {:induction false} EntryCarriesBack(v: Json, w: Json, m: Member)
    requires Proper(v) && Proper(w) && v.Object? && w.Object? && Equivalent(v, w) && Rendered(w, m)
    ensures Rendered(v, m)
    decreases v, 0
  {
    var j :| 0 <= j < |w.entries| && RenderedAt(w, j, m);
    var i: nat :| SharesKey(v, i, w, j);
    var k: nat :| SharesKey(v, i, w, k) && Equivalent(v.entries[i].value, w.entries[k].value);
    assert j == k by { assert j < k || k < j || j == k; }
    EquivalentHasSameText(v.entries[i].value, w.entries[j].value);
    assert RenderedAt(v, i, m);
  }

  lemma {:induction false} MembersDistinct(v: Json, n: nat)
    requires v.Object? && n <= |v.entries| && DistinctKeys(v.entries)
    ensures DistinctMembers(Members(v, n))
    decreases n
  {
    if n > 0 {
      MembersDistinct(v, n - 1);
      MembersExact(v, n - 1);
      var before, e := Members(v, n - 1), v.entries[n - 1];
      forall a | 0 <= a < |before|
        ensures before[a].key != e.key
      {
        assert before[a] in before;
        var i :| 0 <= i < n - 1 && RenderedAt(v, i, before[a]);
      }
    }
  }

  /** Two JSON values get the same canonical text exactly when they are equal up to the order
      of object keys. */
  lemma CanonicalIffEquivalent(v: Json, w: Json)
    requires Proper(v) && Proper(w)
    ensures Canonical(v) == Canonical(w) <==> Equivalent(v, w)
  {
    if Canonical(v) == Canonical(w) {
      SameTextIsEquivalent(v, w);
    }
    if Equivalent(v, w) {
      EquivalentHasSameText(v, w);
    }
  }

  lemma JoinedNothing(texts: seq<string>)
    ensures Join(texts) == "" <==> texts == [] || texts == [""]
  {
  }

  /** Outside JSON the text loses information: of the lists whose items are JSON values or
      undefined, exactly the one holding a single undefined prints like the empty list. */
  lemma UndefinedItemCollides(v: Json)
    requires v.List? && forall i :: 0 <= i < |v.items| ==> v.items[i].Undefined? || Proper(v.items[i])
    ensures Canonical(v) == Canonical(List([])) <==> v == List([]) || v == List([Undefined])
  {
    var texts := ItemTexts(v);
    JoinedNothing(texts);
    assert Canonical(List([])) == "[]" && Canonical(v) == "[" + Join(texts) + "]";
    assert |Canonical(v)| == |Join(texts)| + 2;
    if Canonical(v) == Canonical(List([])) && v.items != [] {
      assert texts == [""];
      var item := v.items[0];
      assert Canonical(item) == "";
      if !item.Undefined? {
        LeadShows(item, "");
      }
    }
  }

  // ---------------------------------------------------------------- idempotency keys

  lemma {:induction false} EscapedHasNoNewline(s: string)
    ensures '\n' !in EscapeAll(s)
  {
    if s != "" {
      EscapedHasNoNewline(s[1..]);
      CharHasNoNewline(s[0]);
    }
  }

  lemma CharHasNoNewline(c: char)
    ensures '\n' !in Escape(c)
  {
    if c < ' ' {
      HexHasNoNewline(c as int / 16);
      HexHasNoNewline(c as int % 16);
    }
  }

  lemma HexHasNoNewline(n: nat)
    requires n < 16
    ensures HexDigit(n) != '\n'
  {
    assert "0123456789abcdef"[n] in "0123456789abcdef";
  }

  lemma {:induction false} JoinHasNoNewline(texts: seq<string>)
    requires forall i :: 0 <= i < |texts| ==> '\n' !in texts[i]
    ensures '\n' !in Join(texts)
  {
    if |texts| > 1 {
      JoinHasNoNewline(texts[1..]);
    }
  }

  /** Canonical text is a single line. */
  lemma {:induction false} CanonicalHasNoNewline(v: Json)
    requires Proper(v) || v.Undefined?
    ensures '\n' !in Canonical(v)
    decreases v
  {
    match v
    case Number(text) =>
      assert forall i :: 0 <= i < |text| ==> NumberChar(text[i]) && text[i] != '\n';
    case Text(s) => EscapedHasNoNewline(s);
    case List(items) =>
      forall i | 0 <= i < |items|
        ensures '\n' !in ItemTexts(v)[i]
      {
        CanonicalHasNoNewline(items[i]);
      }
      JoinHasNoNewline(ItemTexts(v));
    case Object(entries) =>
      var ms := Sort(Members(v, |entries|));
      MembersRendered(v);
      forall k | 0 <= k < |ms|
        ensures '\n' !in MemberTexts(ms)[k]
      {
        assert ms[k] in ms;
        assert Rendered(v, ms[k]);
        var i :| 0 <= i < |entries| && RenderedAt(v, i, ms[k]);
        CanonicalHasNoNewline(entries[i].value);
        EscapedHasNoNewline(ms[k].key);
      }
      JoinHasNoNewline(MemberTexts(ms));
    case _ =>
  }

  /** The text that is hashed into an idempotency key. */
  function KeyText(run: string, action: string, args: Json, approval: Option<string>): string {
    run + "\n" + action + "\n" + Canonical(args) + "\n" + (if approval.Some? then approval.value else "")
  }

  lemma LineUnique(a: string, b: string, x: string, y: string)
    requires '\n' !in a && '\n' !in b && a + "\n" + x == b + "\n" + y
    ensures a == b && x == y
  {
    var l, r := a + "\n" + x, b + "\n" + y;
    LineEnd(a, x);
    LineEnd(b, y);
    assert |a| == |b|;
    assert a == l[..|a|] && b == r[..|b|];
    assert x == l[|a| + 1..] && y == r[|b| + 1..];
  }

  /** The first line ends at the first newline. */
  lemma LineEnd(a: string, x: string)
    requires '\n' !in a
    ensures (a + "\n" + x)[|a|] == '\n' && forall i :: 0 <= i < |a| ==> (a + "\n" + x)[i] != '\n'
  {
  }

  /** The hashed text is injective in run, action, arguments (up to key order) and approval,
      when the identifiers are single lines and an approval id is not empty. */
  lemma KeyTextInjective(run: string, run': string, action: string, action': string, args: Json, args': Json,
                         approval: Option<string>, approval': Option<string>)
    requires Proper(args) && Proper(args')
    requires '\n' !in run && '\n' !in run' && '\n' !in action && '\n' !in action'
    requires approval != Some("") && approval' != Some("")
    ensures KeyText(run, action, args, approval) == KeyText(run', action', args', approval') <==>
            run == run' && action == action' && Equivalent(args, args') && approval == approval'
  {
    CanonicalHasNoNewline(args);
    CanonicalHasNoNewline(args');
    CanonicalIffEquivalent(args, args');
    if KeyText(run, action, args, approval) == KeyText(run', action', args', approval') {
      KeyLines(run, action, Canonical(args), if approval.Some? then approval.value else "",
               run', action', Canonical(args'), if approval'.Some? then approval'.value else "");
    }
  }

  lemma KeyLines(a: string, b: string, c: string, d: string, a': string, b': string, c': string, d': string)
    requires '\n' !in a && '\n' !in b && '\n' !in c && '\n' !in a' && '\n' !in b' && '\n' !in c'
    requires a + "\n" + b + "\n" + c + "\n" + d == a' + "\n" + b' + "\n" + c' + "\n" + d'
    ensures a == a' && b == b' && c == c' && d == d'
  {
    assert a + "\n" + b + "\n" + c + "\n" + d == a + "\n" + (b + "\n" + c + "\n" + d);
    assert a' + "\n" + b' + "\n" + c' + "\n" + d' == a' + "\n" + (b' + "\n" + c' + "\n" + d');
    LineUnique(a, a', b + "\n" + c + "\n" + d, b' + "\n" + c' + "\n" + d');
    assert b + "\n" + c + "\n" + d == b + "\n" + (c + "\n" + d);
    assert b' + "\n" + c' + "\n" + d' == b' + "\n" + (c' + "\n" + d');
    LineUnique(b, b', c + "\n" + d, c' + "\n" + d');
    LineUnique(c, c', d, d');
  }
}
