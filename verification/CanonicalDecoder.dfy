/**
 * A decoder for the encoder's output, following the grammar of sections 2 to 7 of RFC 8259, and the injectivity of the
 * encoder: decoding an encoding gives back the value in normal form.
 */
module CanonicalDecoder {
  import opened Outcomes
  import opened Canonical

  // ---------- Strings ----------

  function HexValue(u: Unit): Option<nat> {
    if IsDigit(u) then Some(u - 48) else if 97 <= u <= 102 then Some(u - 87) else None
  }

  /** The unit that one backslash and letter stand for. */
  function ShortEscape(u: Unit): Option<Unit> {
    if u == QUOTE || u == BACKSLASH then Some(u)
    else if u == 98 then Some(8)
    else if u == 116 then Some(9)
    else if u == 110 then Some(10)
    else if u == 102 then Some(12)
    else if u == 114 then Some(13)
    else None
  }

  function ParseHex(t: Text): Option<(Unit, Text)> {
    if |t| < 4 then None
    else match (HexValue(t[0]), HexValue(t[1]), HexValue(t[2]), HexValue(t[3]))
         case (Some(a), Some(b), Some(c), Some(d)) =>
           var u := a * 4096 + b * 256 + c * 16 + d;
           if u < 0x10000 then Some((u, t[4..])) else None
         case _ => None
  }

  /** One character of a string token. */
  function ParseUnit(t: Text): (r: Option<(Unit, Text)>)
    ensures r.Some? ==> |r.value.1| < |t|
  {
    if t == [] || t[0] < 32 || t[0] == QUOTE then None
    else if t[0] != BACKSLASH then Some((t[0], t[1..]))
    else if |t| < 2 then None
    else if t[1] == 117 then ParseHex(t[2..])
    else match ShortEscape(t[1]) case Some(u) => Some((u, t[2..])) case None => None
  }

  /** The characters up to the closing quote. */
  function ParseChars(t: Text): (r: Option<(Text, Text)>)
    ensures r.Some? ==> |r.value.1| < |t|
    decreases |t|
  {
    if t == [] then None
    else if t[0] == QUOTE then Some(([], t[1..]))
    else match ParseUnit(t)
         case None => None
         case Some((u, rest)) =>
           match ParseChars(rest)
           case None => None
           case Some((s, after)) => Some(([u] + s, after))
  }

  lemma HexDigitValue(d: nat)
    requires d < 16
    ensures HexValue(HexDigit(d)) == Some(d)
  {}

  lemma HexDigitsSum(u: nat)
    ensures (u / 4096) * 4096 + (u / 256 % 16) * 256 + (u / 16 % 16) * 16 + u % 16 == u
  {
    assert u / 16 == 16 * (u / 256) + u / 16 % 16 by { QuotientOfQuotient(u, 16, 16); }
    assert u / 256 == 16 * (u / 4096) + u / 256 % 16 by { QuotientOfQuotient(u, 256, 16); }
  }

  lemma QuotientOfQuotient(u: nat, a: nat, b: nat)
    requires a > 0 && b > 0 && (a, b) in {(16, 16), (256, 16)}
    ensures u / a / b == u / (a * b)
  {}

  lemma ParseHexOf(a: nat, b: nat, c: nat, d: nat, rest: Text)
    requires a < 16 && b < 16 && c < 16 && d < 16
    ensures ParseHex([HexDigit(a), HexDigit(b), HexDigit(c), HexDigit(d)] + rest)
         == Some((a * 4096 + b * 256 + c * 16 + d, rest))
  {
    var t := [HexDigit(a), HexDigit(b), HexDigit(c), HexDigit(d)] + rest;
    HexDigitValue(a);
    HexDigitValue(b);
    HexDigitValue(c);
    HexDigitValue(d);
    assert t[4..] == rest;
  }

  lemma HexRoundTrip(u: Unit, rest: Text)
    ensures ParseUnit(HexEscape(u) + rest) == Some((u, rest))
  {
    hide ParseHex, HexDigit;
    var digits := [HexDigit(u / 4096), HexDigit(u / 256 % 16), HexDigit(u / 16 % 16), HexDigit(u % 16)];
    ParseHexOf(u / 4096, u / 256 % 16, u / 16 % 16, u % 16, rest);
    HexDigitsSum(u);
    assert (HexEscape(u) + rest)[2..] == digits + rest;
  }

  lemma UnitRoundTrip(u: Unit, rest: Text)
    ensures ParseUnit(EscapeUnit(u) + rest) == Some((u, rest))
    ensures (EscapeUnit(u) + rest)[0] != QUOTE
  {
    var e := EscapeUnit(u);
    if e == HexEscape(u) {
      HexRoundTrip(u, rest);
    } else {
      assert (e + rest)[|e|..] == rest;
    }
  }

  /** One step of `ParseChars`. */
  lemma ParseCharsStep(t: Text, u: Unit, after: Text, s: Text, rest: Text)
    requires t != [] && t[0] != QUOTE && ParseUnit(t) == Some((u, after)) && ParseChars(after) == Some((s, rest))
    ensures ParseChars(t) == Some(([u] + s, rest))
  {}

  /** A surrogate pair, which the encoder leaves as it is. */
  lemma ParsePair(high: Unit, low: Unit, after: Text, s: Text, rest: Text)
    requires IsHigh(high) && IsLow(low) && ParseChars(after) == Some((s, rest))
    ensures ParseChars([high, low] + after) == Some(([high, low] + s, rest))
  {
    hide ParseChars, ParseUnit;
    RawUnit(low, after);
    ParseCharsStep([low] + after, low, after, s, rest);
    RawUnit(high, [low] + after);
    ParseCharsStep([high] + ([low] + after), high, [low] + after, [low] + s, rest);
    assert [high, low] + after == [high] + ([low] + after);
    assert [high, low] + s == [high] + ([low] + s);
  }

  lemma ParseOne(u: Unit, after: Text, s: Text, rest: Text)
    requires ParseChars(after) == Some((s, rest))
    ensures ParseChars(EscapeUnit(u) + after) == Some(([u] + s, rest))
  {
    hide ParseChars, ParseUnit, EscapeUnit;
    UnitRoundTrip(u, after);
    NotEmpty(u, after);
    ParseCharsStep(EscapeUnit(u) + after, u, after, s, rest);
  }

  lemma NotEmpty(u: Unit, after: Text)
    ensures EscapeUnit(u) + after != []
  {
    assert |EscapeUnit(u)| > 0;
  }

  lemma ParseEnd(rest: Text)
    ensures ParseChars(Escape([]) + ([QUOTE] + rest)) == Some(([], rest))
  {
    assert Escape([]) + ([QUOTE] + rest) == [QUOTE] + rest && ([QUOTE] + rest)[1..] == rest;
  }

  /** How the encoder takes a string apart. */
  lemma EscapeParts(s: Text)
    requires s != []
    ensures if |s| > 1 && IsHigh(s[0]) && IsLow(s[1])
        then Escape(s) == [s[0], s[1]] + Escape(s[2..]) && s == [s[0], s[1]] + s[2..]
            else Escape(s) == EscapeUnit(s[0]) + Escape(s[1..]) && s == [s[0]] + s[1..]
  {
    hide EscapeUnit;
  }

  lemma {:induction false} CharsRoundTrip(s: Text, rest: Text)
    ensures ParseChars(Escape(s) + ([QUOTE] + rest)) == Some((s, rest))
    decreases |s|
  {
    hide ParseChars, Escape, EscapeUnit, IsHigh, IsLow;
    var tail := [QUOTE] + rest;
    if s == [] {
      ParseEnd(rest);
    } else if |s| > 1 && IsHigh(s[0]) && IsLow(s[1]) {
      EscapeParts(s);
      CharsRoundTrip(s[2..], rest);
      ParsePair(s[0], s[1], Escape(s[2..]) + tail, s[2..], rest);
      Regroup([s[0], s[1]], Escape(s[2..]), tail);
    } else {
      EscapeParts(s);
      CharsRoundTrip(s[1..], rest);
      ParseOne(s[0], Escape(s[1..]) + tail, s[1..], rest);
      Regroup(EscapeUnit(s[0]), Escape(s[1..]), tail);
    }
  }

  lemma Regroup(a: Text, b: Text, c: Text)
    ensures (a + b) + c == a + (b + c)
  {}

  lemma RawUnit(u: Unit, rest: Text)
    requires IsHigh(u) || IsLow(u)
    ensures ParseUnit([u] + rest) == Some((u, rest)) && u != QUOTE
  {
    assert ([u] + rest)[1..] == rest;
  }

  // ---------- Numbers ----------

  function NumberLength(t: Text): (n: nat)
    ensures n <= |t| && forall i :: 0 <= i < n ==> IsNumberUnit(t[i])
  {
    if t == [] || !IsNumberUnit(t[0]) then 0 else 1 + NumberLength(t[1..])
  }

  lemma {:induction false} NumberRoundTrip(n: Text, rest: Text)
    requires forall i :: 0 <= i < |n| ==> IsNumberUnit(n[i])
    requires rest == [] || !IsNumberUnit(rest[0])
    ensures NumberLength(n + rest) == |n|
  {
    if n == [] {
      assert n + rest == rest;
    } else {
      assert (n + rest)[1..] == n[1..] + rest;
      NumberRoundTrip(n[1..], rest);
    }
  }

  // ---------- Values ----------

  function ParseValue(t: Text): (r: Option<(Value, Text)>)
    ensures r.Some? ==> |r.value.1| < |t|
    decreases |t|, 0
  {
    if t == [] then None
    else if NULL_TEXT <= t then Some((Null, t[4..]))
    else if TRUE_TEXT <= t then Some((Bool(true), t[4..]))
    else if FALSE_TEXT <= t then Some((Bool(false), t[5..]))
    else if t[0] == QUOTE then
      match ParseChars(t[1..]) case Some((s, rest)) => Some((Str(s), rest)) case None => None
    else if t[0] == OPEN_LIST then
      if |t| > 1 && t[1] == CLOSE_LIST then Some((Arr([]), t[2..]))
      else match ParseItems(t[1..]) case Some((items, rest)) => Some((Arr(items), rest)) case None => None
    else if t[0] == OPEN_OBJECT then
      if |t| > 1 && t[1] == CLOSE_OBJECT then Some((Obj([]), t[2..]))
      else match ParseMembers(t[1..]) case Some((members, rest)) => Some((Obj(members), rest)) case None => None
    else if IsNumberText(t[..NumberLength(t)]) then Some((Num(t[..NumberLength(t)]), t[NumberLength(t)..]))
    else None
  }

  function ParseItems(t: Text): (r: Option<(seq<Value>, Text)>)
    ensures r.Some? ==> |r.value.1| < |t|
    decreases |t|, 1
  {
    match ParseValue(t)
    case None => None
    case Some((v, rest)) =>
      if rest == [] then None
      else if rest[0] == CLOSE_LIST then Some(([v], rest[1..]))
      else if rest[0] != COMMA then None
      else match ParseItems(rest[1..]) case Some((items, after)) => Some(([v] + items, after)) case None => None
  }

  function ParseMember(t: Text): (r: Option<(Member, Text)>)
    ensures r.Some? ==> |r.value.1| < |t|
    decreases |t|, 1
  {
    if t == [] || t[0] != QUOTE then None
    else match ParseChars(t[1..])
         case None => None
         case Some((key, rest)) =>
           if rest == [] || rest[0] != COLON then None
           else match ParseValue(rest[1..]) case Some((v, after)) => Some((Member(key, v), after)) case None => None
  }

  function ParseMembers(t: Text): (r: Option<(seq<Member>, Text)>)
    ensures r.Some? ==> |r.value.1| < |t|
    decreases |t|, 2
  {
    match ParseMember(t)
    case None => None
    case Some((m, rest)) =>
      if rest == [] then None
      else if rest[0] == CLOSE_OBJECT then Some(([m], rest[1..]))
      else if rest[0] != COMMA then None
      else match ParseMembers(rest[1..]) case Some((members, after)) => Some(([m] + members, after)) case None => None
  }

  /** The whole text is one value. */
  function Decode(t: Text): Option<Value> {
    match ParseValue(t)
    case Some((v, rest)) => if rest == [] then Some(v) else None
    case None => None
  }

  /** What may follow a value inside another one. */
  predicate Delimited(rest: Text) {
    rest == [] || rest[0] == COMMA || rest[0] == CLOSE_LIST || rest[0] == CLOSE_OBJECT
  }

  lemma StringRoundTrip(s: Text, rest: Text)
    ensures (Quoted(s) + rest)[0] == QUOTE && ParseChars((Quoted(s) + rest)[1..]) == Some((s, rest))
  {
    var t := Quoted(s) + rest;
    assert t[1..] == Escape(s) + ([QUOTE] + rest);
    CharsRoundTrip(s, rest);
  }

  lemma ParseEmptyObject(t: Text)
    requires |t| > 1 && t[0] == OPEN_OBJECT && t[1] == CLOSE_OBJECT
    ensures ParseValue(t) == Some((Obj([]), t[2..]))
  {
    hide ParseMembers, ParseItems, ParseChars;
  }

  lemma ParseEmptyList(t: Text)
    requires |t| > 1 && t[0] == OPEN_LIST && t[1] == CLOSE_LIST
    ensures ParseValue(t) == Some((Arr([]), t[2..]))
  {
    hide ParseMembers, ParseItems, ParseChars;
  }

  lemma ParseList(t: Text, items: seq<Value>, rest: Text)
    requires |t| > 1 && t[0] == OPEN_LIST && t[1] != CLOSE_LIST && ParseItems(t[1..]) == Some((items, rest))
    ensures ParseValue(t) == Some((Arr(items), rest))
  {
    hide ParseItems;
  }

  /** A text that starts like an object and does not close it at once is a list of members. */
  lemma ParseObject(t: Text, members: seq<Member>, rest: Text)
    requires |t| > 1 && t[0] == OPEN_OBJECT && t[1] != CLOSE_OBJECT && ParseMembers(t[1..]) == Some((members, rest))
    ensures ParseValue(t) == Some((Obj(members), rest))
  {
    hide ParseMembers;
  }

  lemma StringValueRoundTrip(s: Text, rest: Text)
    ensures ParseValue(Quoted(s) + rest) == Some((Str(s), rest))
  {
    hide ParseChars, Escape;
    StringRoundTrip(s, rest);
    assert |Quoted(s) + rest| > 0;
  }

  lemma WordRoundTrip(rest: Text)
    ensures ParseValue(NULL_TEXT + rest) == Some((Null, rest))
    ensures ParseValue(TRUE_TEXT + rest) == Some((Bool(true), rest))
    ensures ParseValue(FALSE_TEXT + rest) == Some((Bool(false), rest))
  {
    assert (NULL_TEXT + rest)[4..] == rest && (TRUE_TEXT + rest)[4..] == rest && (FALSE_TEXT + rest)[5..] == rest;
    assert (NULL_TEXT + rest)[0] == 110 && (TRUE_TEXT + rest)[0] == 116 && (FALSE_TEXT + rest)[0] == 102;
  }

  /** The first unit of a value's text tells its kind. */
  lemma PlainStart(v: Value)
    ensures Plain(v) != [] && Plain(v)[0] != CLOSE_LIST && Plain(v)[0] != CLOSE_OBJECT
  {}

  lemma NumberValueRoundTrip(n: Number, rest: Text)
    requires Delimited(rest)
    ensures ParseValue(n + rest) == Some((Num(n), rest))
  {
    NumberRoundTrip(n, rest);
    var t := n + rest;
    assert t[..|n|] == n && t[|n|..] == rest;
    assert t[0] == n[0];
  }

  /** The text of any value, followed by anything that may follow a value, parses back to the value. */
  lemma {:induction false} PlainRoundTrip(v: Value, rest: Text)
    requires Delimited(rest)
    ensures ParseValue(Plain(v) + rest) == Some((v, rest))
    decreases v, 1
  {
    match v
    case Null => WordRoundTrip(rest);
    case Bool(b) => WordRoundTrip(rest);
    case Num(n) => NumberValueRoundTrip(n, rest);
    case Str(s) => StringValueRoundTrip(s, rest);
    case Arr(items) =>
      if items != [] { ItemsRoundTrip(items, rest); }
      ListValue(items, rest);
    case Obj(members) =>
      if members != [] { MembersRoundTrip(members, rest); }
      ObjectValue(members, rest);
  }

  lemma ItemsStart(items: seq<Value>)
    requires items != []
    ensures |PlainItems(items)| > 0 && PlainItems(items)[0] != CLOSE_LIST
  {
    hide Plain;
    PlainStart(items[0]);
  }

  lemma ListValue(items: seq<Value>, rest: Text)
    requires items != [] ==> ParseItems(PlainItems(items) + ([CLOSE_LIST] + rest)) == Some((items, rest))
    ensures ParseValue(Plain(Arr(items)) + rest) == Some((Arr(items), rest))
  {
    hide ParseItems, ParseValue, PlainItems;
    var t := Plain(Arr(items)) + rest;
    if items == [] {
      NoItems();
      assert t == [OPEN_LIST, CLOSE_LIST] + rest && t[2..] == rest;
      ParseEmptyList(t);
    } else {
      assert t == [OPEN_LIST] + (PlainItems(items) + ([CLOSE_LIST] + rest));
      ItemsStart(items);
      ParseList(t, items, rest);
    }
  }

  lemma NoItems()
    ensures PlainItems([]) == [] && PlainMembers([]) == []
  {}

  lemma MembersStart(members: seq<Member>)
    requires members != []
    ensures |PlainMembers(members)| > 0 && PlainMembers(members)[0] == QUOTE
  {
    hide Escape, Plain;
  }

  lemma ObjectValue(members: seq<Member>, rest: Text)
    requires members != [] ==> ParseMembers(PlainMembers(members) + ([CLOSE_OBJECT] + rest)) == Some((members, rest))
    ensures ParseValue(Plain(Obj(members)) + rest) == Some((Obj(members), rest))
  {
    hide ParseMembers, ParseValue, PlainMembers;
    var t := Plain(Obj(members)) + rest;
    if members == [] {
      NoItems();
      assert t == [OPEN_OBJECT, CLOSE_OBJECT] + rest && t[2..] == rest;
      ParseEmptyObject(t);
    } else {
      assert t == [OPEN_OBJECT] + (PlainMembers(members) + ([CLOSE_OBJECT] + rest));
      MembersStart(members);
      ParseObject(t, members, rest);
    }
  }

  lemma {:induction false} ItemsRoundTrip(items: seq<Value>, rest: Text)
    requires items != []
    ensures ParseItems(PlainItems(items) + ([CLOSE_LIST] + rest)) == Some((items, rest))
    decreases items, 0
  {
    hide ParseValue, Plain;
    var close := [CLOSE_LIST] + rest;
    if |items| == 1 {
      PlainRoundTrip(items[0], close);
      assert close[1..] == rest && items == [items[0]];
    } else {
      var more := [COMMA] + (PlainItems(items[1..]) + close);
      assert PlainItems(items) + close == Plain(items[0]) + more;
      PlainRoundTrip(items[0], more);
      assert more[1..] == PlainItems(items[1..]) + close;
      ItemsRoundTrip(items[1..], rest);
      assert items == [items[0]] + items[1..];
    }
  }

  lemma {:induction false} MemberRoundTrip(m: Member, rest: Text)
    requires Delimited(rest)
    ensures ParseMember(PlainMember(m) + rest) == Some((m, rest))
    decreases m, 2
  {
    hide ParseValue, ParseChars, Plain, Quoted;
    var after := [COLON] + (Plain(m.value) + rest);
    assert PlainMember(m) + rest == Quoted(m.key) + after;
    StringRoundTrip(m.key, after);
    assert after[1..] == Plain(m.value) + rest;
    PlainRoundTrip(m.value, rest);
  }

  lemma {:induction false} MembersRoundTrip(members: seq<Member>, rest: Text)
    requires members != []
    ensures ParseMembers(PlainMembers(members) + ([CLOSE_OBJECT] + rest)) == Some((members, rest))
    decreases members, 0
  {
    hide ParseMember, PlainMember;
    var close := [CLOSE_OBJECT] + rest;
    if |members| == 1 {
      MemberRoundTrip(members[0], close);
      assert close[1..] == rest && members == [members[0]];
    } else {
      var more := [COMMA] + (PlainMembers(members[1..]) + close);
      assert PlainMembers(members) + close == PlainMember(members[0]) + more;
      MemberRoundTrip(members[0], more);
      assert more[1..] == PlainMembers(members[1..]) + close;
      MembersRoundTrip(members[1..], rest);
      assert members == [members[0]] + members[1..];
    }
  }

  // ---------- Injectivity ----------

  /** Decoding an encoding gives back the value with its object keys sorted. */
  lemma DecodeEncode(v: Value)
    ensures Decode(Encode(v)) == Some(Normal(v))
  {
    hide ParseValue, Plain, Normal, Encode;
    EncodeIsPlainNormal(v);
    PlainRoundTrip(Normal(v), []);
    assert Plain(Normal(v)) + [] == Plain(Normal(v));
  }
}
