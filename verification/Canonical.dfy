/**
 * The canonical encoder: JSON text with object keys in UTF-16 order. Decoding an encoding gives back the value with its
 * keys sorted, so two encodings are equal exactly when the values are equal up to the order of object keys.
 */
module Canonical {
  /** A UTF-16 code unit, and strings of them. */
  type Unit = u: nat | u < 0x10000
  type Text = seq<Unit>

  const QUOTE: Unit := 34
  const BACKSLASH: Unit := 92
  const COMMA: Unit := 44
  const COLON: Unit := 58
  const OPEN_LIST: Unit := 91
  const CLOSE_LIST: Unit := 93
  const OPEN_OBJECT: Unit := 123
  const CLOSE_OBJECT: Unit := 125
  const MINUS: Unit := 45
  const NULL_TEXT: Text := [110, 117, 108, 108]
  const TRUE_TEXT: Text := [116, 114, 117, 101]
  const FALSE_TEXT: Text := [102, 97, 108, 115, 101]

  predicate IsDigit(u: Unit) { 48 <= u <= 57 }

  /** The characters of a number rendering: digits, `-`, `+`, `.` and `e`. */
  predicate IsNumberUnit(u: Unit) { IsDigit(u) || u == MINUS || u == 43 || u == 46 || u == 101 }

  predicate IsNumberText(t: Text) {
    |t| > 0 && (IsDigit(t[0]) || t[0] == MINUS) && forall i :: 0 <= i < |t| ==> IsNumberUnit(t[i])
  }

  /** A finite number other than -0, identified with its one shortest decimal rendering. */
  type Number = t: Text | IsNumberText(t) witness [48]

  datatype Value =
    | Null
    | Bool(b: bool)
    | Num(number: Number)
    | Str(text: Text)
    | Arr(items: seq<Value>)
    | Obj(members: seq<Member>)

  datatype Member = Member(key: Text, value: Value)

  // ---------- Object keys ----------

  function KeysOf(members: seq<Member>): (keys: seq<Text>)
    ensures |keys| == |members| && forall i :: 0 <= i < |keys| ==> keys[i] == members[i].key
  {
    seq(|members|, i requires 0 <= i < |members| => members[i].key)
  }

  predicate Distinct(keys: seq<Text>) {
    forall i, j :: 0 <= i < j < |keys| ==> keys[i] != keys[j]
  }

  function IndexOf(members: seq<Member>, key: Text): (i: nat)
    requires key in KeysOf(members)
    ensures i < |members| && members[i].key == key
  {
    if members[0].key == key then 0
    else
      assert key in KeysOf(members[1..]) by {
        var j :| 0 <= j < |members| && members[j].key == key;
        assert KeysOf(members[1..])[j - 1] == key;
      }
      1 + IndexOf(members[1..], key)
  }

  /** `object[key]`. */
  function Lookup(members: seq<Member>, key: Text): Value
    requires key in KeysOf(members)
  { members[IndexOf(members, key)].value }

  /** Every object of the value has distinct keys, as every JavaScript object has. */
  ghost predicate WellFormed(v: Value) {
    match v
    case Arr(items) => forall i :: 0 <= i < |items| ==> WellFormed(items[i])
    case Obj(members) => Distinct(KeysOf(members)) && forall i :: 0 <= i < |members| ==> WellFormed(members[i].value)
    case _ => true
  }

  /** What `canonicalCopy` returns. */
  type CanonicalValue = v: Value | WellFormed(v) ghost witness Null

  /** Comparison of strings by code unit, as `sort()` does without a comparator. */
  predicate Before(a: Text, b: Text) {
    b != [] && (a == [] || a[0] < b[0] || (a[0] == b[0] && Before(a[1..], b[1..])))
  }

  function InsertKey(k: Text, keys: seq<Text>): seq<Text> {
    if keys == [] || Before(k, keys[0]) then [k] + keys else [keys[0]] + InsertKey(k, keys[1..])
  }

  function SortKeys(keys: seq<Text>): seq<Text> {
    if keys == [] then [] else InsertKey(keys[0], SortKeys(keys[1..]))
  }

  lemma {:induction false} InsertKeyElements(k: Text, keys: seq<Text>)
    ensures forall x :: x in InsertKey(k, keys) <==> x == k || x in keys
  {
    if keys != [] && !Before(k, keys[0]) {
      InsertKeyElements(k, keys[1..]);
      assert keys == [keys[0]] + keys[1..];
    }
  }

  lemma {:induction false} SortKeysElements(keys: seq<Text>)
    ensures forall x :: x in SortKeys(keys) <==> x in keys
  {
    if keys != [] {
      SortKeysElements(keys[1..]);
      InsertKeyElements(keys[0], SortKeys(keys[1..]));
      assert keys == [keys[0]] + keys[1..];
    }
  }

  // ---------- The encoder ----------

  predicate IsHigh(u: Unit) { 0xD800 <= u < 0xDC00 }
  predicate IsLow(u: Unit) { 0xDC00 <= u < 0xE000 }

  function HexDigit(d: nat): Unit
    requires d < 16
  { if d < 10 then 48 + d else 87 + d }

  function HexEscape(u: Unit): Text {
    [BACKSLASH, 117, HexDigit(u / 4096), HexDigit(u / 256 % 16), HexDigit(u / 16 % 16), HexDigit(u % 16)]
  }

  /** One code unit outside a surrogate pair, as `JSON.stringify` writes it. */
  function EscapeUnit(u: Unit): Text {
    if u == QUOTE || u == BACKSLASH then [BACKSLASH, u]
    else if u == 8 then [BACKSLASH, 98]
    else if u == 9 then [BACKSLASH, 116]
    else if u == 10 then [BACKSLASH, 110]
    else if u == 12 then [BACKSLASH, 102]
    else if u == 13 then [BACKSLASH, 114]
    else if u < 32 || IsHigh(u) || IsLow(u) then HexEscape(u)
    else [u]
  }

  function Escape(s: Text): Text {
    if s == [] then []
    else if |s| > 1 && IsHigh(s[0]) && IsLow(s[1]) then [s[0], s[1]] + Escape(s[2..])
    else EscapeUnit(s[0]) + Escape(s[1..])
  }

  /** `JSON.stringify` of a string. */
  function Quoted(s: Text): Text { [QUOTE] + Escape(s) + [QUOTE] }

  /** `canonicalEncode`. */
  function Encode(v: Value): Text
    decreases v, 1, 0
  {
    match v
    case Null => NULL_TEXT
    case Bool(b) => if b then TRUE_TEXT else FALSE_TEXT
    case Num(number) => number
    case Str(text) => Quoted(text)
    case Arr(items) => [OPEN_LIST] + EncodeItems(items) + [CLOSE_LIST]
    case Obj(members) =>
      SortKeysElements(KeysOf(members));
      [OPEN_OBJECT] + EncodeKeys(v, SortKeys(KeysOf(members))) + [CLOSE_OBJECT]
  }

  function EncodeItems(items: seq<Value>): Text
    decreases items, 0, 0
  {
    if items == [] then []
    else if |items| == 1 then Encode(items[0])
    else Encode(items[0]) + [COMMA] + EncodeItems(items[1..])
  }

  function EncodeKeys(v: Value, keys: seq<Text>): Text
    requires v.Obj? && forall k :: k in keys ==> k in KeysOf(v.members)
    decreases v, 0, |keys|
  {
    if keys == [] then []
    else
      var i := IndexOf(v.members, keys[0]);
      var first := Quoted(keys[0]) + [COLON] + Encode(v.members[i].value);
      if |keys| == 1 then first else first + [COMMA] + EncodeKeys(v, keys[1..])
  }

  // ---------- Normal forms ----------

  /** The value with the keys of every object sorted. */
  function Normal(v: Value): Value
    decreases v, 1, 0
  {
    match v
    case Arr(items) => Arr(NormalItems(items))
    case Obj(members) => SortKeysElements(KeysOf(members)); Obj(NormalKeys(v, SortKeys(KeysOf(members))))
    case _ => v
  }

  function NormalItems(items: seq<Value>): (r: seq<Value>)
    ensures |r| == |items|
    decreases items, 0, 0
  {
    if items == [] then [] else [Normal(items[0])] + NormalItems(items[1..])
  }

  function NormalKeys(v: Value, keys: seq<Text>): (r: seq<Member>)
    requires v.Obj? && forall k :: k in keys ==> k in KeysOf(v.members)
    ensures |r| == |keys|
    decreases v, 0, |keys|
  {
    if keys == [] then []
    else
      var i := IndexOf(v.members, keys[0]);
      [Member(keys[0], Normal(v.members[i].value))] + NormalKeys(v, keys[1..])
  }

  /** The text of a value with its members in the order they have. */
  function Plain(v: Value): Text
    decreases v, 1
  {
    match v
    case Null => NULL_TEXT
    case Bool(b) => if b then TRUE_TEXT else FALSE_TEXT
    case Num(number) => number
    case Str(text) => Quoted(text)
    case Arr(items) => [OPEN_LIST] + PlainItems(items) + [CLOSE_LIST]
    case Obj(members) => [OPEN_OBJECT] + PlainMembers(members) + [CLOSE_OBJECT]
  }

  function PlainItems(items: seq<Value>): Text
    decreases items, 0
  {
    if items == [] then []
    else if |items| == 1 then Plain(items[0])
    else Plain(items[0]) + [COMMA] + PlainItems(items[1..])
  }

  function PlainMember(m: Member): Text
    decreases m, 2
  { Quoted(m.key) + [COLON] + Plain(m.value) }

  function PlainMembers(members: seq<Member>): Text
    decreases members, 0
  {
    if members == [] then []
    else if |members| == 1 then PlainMember(members[0])
    else PlainMember(members[0]) + [COMMA] + PlainMembers(members[1..])
  }

  /** The encoder writes the normal form. */
  lemma {:induction false} EncodeIsPlainNormal(v: Value)
    ensures Encode(v) == Plain(Normal(v))
    decreases v, 1, 0
  {
    match v
    case Arr(items) => EncodeItemsIsPlain(items);
    case Obj(members) =>
      SortKeysElements(KeysOf(members));
      EncodeKeysIsPlain(v, SortKeys(KeysOf(members)));
    case _ =>
  }

  lemma {:induction false} EncodeItemsIsPlain(items: seq<Value>)
    ensures EncodeItems(items) == PlainItems(NormalItems(items))
    decreases items, 0, 0
  {
    if items != [] {
      EncodeIsPlainNormal(items[0]);
      EncodeItemsIsPlain(items[1..]);
      assert NormalItems(items)[1..] == NormalItems(items[1..]);
    }
  }

  lemma {:induction false} EncodeKeysIsPlain(v: Value, keys: seq<Text>)
    requires v.Obj? && forall k :: k in keys ==> k in KeysOf(v.members)
    ensures EncodeKeys(v, keys) == PlainMembers(NormalKeys(v, keys))
    decreases v, 0, |keys|
  {
    if keys != [] {
      var i := IndexOf(v.members, keys[0]);
      EncodeIsPlainNormal(v.members[i].value);
      EncodeKeysIsPlain(v, keys[1..]);
      assert NormalKeys(v, keys)[1..] == NormalKeys(v, keys[1..]);
    }
  }
}
