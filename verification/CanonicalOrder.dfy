/**
 * What the encoder writes: the one value with the same content whose object keys stand in the order of their UTF-16
 * code units, at every depth, in strings without control characters and lone surrogates.
 */
module CanonicalOrder {
  import opened Canonical
  import opened CanonicalEquality

  /**
   * `p` comes before `q` because of their code units: they agree up to `n`, and there `p` ends first or has the smaller
   * unit.
   */
  predicate SmallerAt(p: Text, q: Text, n: nat) {
    && n <= |p| && n < |q| && p[..n] == q[..n]
    && (n == |p| || p[n] < q[n])
  }

  ghost predicate Smaller(p: Text, q: Text) { exists n: nat :: SmallerAt(p, q, n) }

  /** Every object of the value lists its keys in the order of their code units, strictly. */
  ghost predicate KeysInOrder(v: Value) {
    match v
    case Arr(items) => forall i :: 0 <= i < |items| ==> KeysInOrder(items[i])
    case Obj(members) =>
      && (forall i, j :: 0 <= i < j < |members| ==> Smaller(members[i].key, members[j].key))
      && (forall i :: 0 <= i < |members| ==> KeysInOrder(members[i].value))
    case _ => true
  }

  /** The recursive comparison of the encoder's sort finds the first difference. */
  lemma {:induction false} BeforeIsSmaller(p: Text, q: Text)
    ensures Before(p, q) <==> Smaller(p, q)
  {
    if p == [] && q != [] {
      assert SmallerAt(p, q, 0);
    } else if p != [] && q != [] {
      BeforeIsSmaller(p[1..], q[1..]);
      if p[0] < q[0] { assert SmallerAt(p, q, 0); }
      if p[0] == q[0] && Before(p, q) {
        var n: nat :| SmallerAt(p[1..], q[1..], n);
        assert p[..n + 1] == [p[0]] + p[1..][..n] && q[..n + 1] == [q[0]] + q[1..][..n];
        assert SmallerAt(p, q, n + 1);
      }
      if Smaller(p, q) { SmallerTails(p, q); }
    }
  }

  lemma SmallerTails(p: Text, q: Text)
    requires p != [] && q != [] && Smaller(p, q)
    ensures p[0] < q[0] || (p[0] == q[0] && Smaller(p[1..], q[1..]))
  {
    var n: nat :| SmallerAt(p, q, n);
    if n > 0 {
      assert p[0] == p[..n][0] == q[..n][0] == q[0];
      assert p[1..][..n - 1] == p[..n][1..] && q[1..][..n - 1] == q[..n][1..];
      assert SmallerAt(p[1..], q[1..], n - 1);
    }
  }

  /** The keys of a list of members. */
  lemma NormalKeysAre(v: Value, keys: seq<Text>)
    requires v.Obj? && forall k :: k in keys ==> k in KeysOf(v.members)
    ensures KeysOf(NormalKeys(v, keys)) == keys
  {
    hide NormalKeys;
    forall i | 0 <= i < |keys| ensures NormalKeys(v, keys)[i].key == keys[i] { NormalKeysAt(v, keys, i); }
  }

  lemma {:induction false} NormalIsInOrder(v: Value)
    requires WellFormed(v)
    ensures KeysInOrder(Normal(v)) && WellFormed(Normal(v))
    decreases v
  {
    match v
    case Arr(items) =>
      forall i | 0 <= i < |items| ensures KeysInOrder(NormalItems(items)[i]) && WellFormed(NormalItems(items)[i]) {
        NormalItemsAt(items, i);
        NormalIsInOrder(items[i]);
      }
    case Obj(members) =>
      SortedKeys(v);
      var keys := SortKeys(KeysOf(members));
      NormalKeysAre(v, keys);
      forall i, j | 0 <= i < j < |keys| ensures Smaller(keys[i], keys[j]) && keys[i] != keys[j] {
        BeforeIsSmaller(keys[i], keys[j]);
        BeforeIsTotal(keys[i], keys[j]);
      }
      forall i | 0 <= i < |keys|
        ensures KeysInOrder(NormalKeys(v, keys)[i].value) && WellFormed(NormalKeys(v, keys)[i].value)
      {
        NormalKeysAt(v, keys, i);
        NormalIsInOrder(Lookup(members, keys[i]));
      }
    case _ =>
  }

  /** Taking the members in the order they have changes nothing. */
  lemma NormalOfOrdered(v: Value)
    requires v.Obj? && Distinct(KeysOf(v.members)) && Ascending(KeysOf(v.members))
    requires forall i :: 0 <= i < |v.members| ==> Normal(v.members[i].value) == v.members[i].value
    ensures Normal(v) == v
  {
    SortedKeys(v);
    var keys := KeysOf(v.members);
    AscendingIsUnique(SortKeys(keys), keys);
    hide NormalKeys, SortKeys, IndexOf;
    forall i | 0 <= i < |keys| ensures NormalKeys(v, keys)[i] == v.members[i] {
      NormalKeysAt(v, keys, i);
      LookupOfMember(v.members, i);
    }
    assert NormalKeys(v, keys) == v.members;
  }

  lemma {:induction false} OrderedIsNormal(v: Value)
    requires WellFormed(v) && KeysInOrder(v)
    ensures Normal(v) == v
    decreases v
  {
    match v
    case Arr(items) =>
      forall i | 0 <= i < |items| ensures NormalItems(items)[i] == items[i] {
        NormalItemsAt(items, i);
        OrderedIsNormal(items[i]);
      }
      assert NormalItems(items) == items;
    case Obj(members) =>
      var keys := KeysOf(members);
      forall i, j | 0 <= i < j < |keys| ensures Before(keys[i], keys[j]) { BeforeIsSmaller(keys[i], keys[j]); }
      forall i | 0 <= i < |members| ensures Normal(members[i].value) == members[i].value {
        OrderedIsNormal(members[i].value);
      }
      NormalOfOrdered(v);
    case _ =>
  }

  /**
   * The encoder writes the content of the value with the keys of every object in code unit order: the value written has
   * the same content, its keys are in order, and it is the only such value.
   */
  lemma EncodesInOrder(v: Value, w: Value)
    requires WellFormed(v) && WellFormed(w)
    ensures Encode(v) == Plain(Normal(v))
    ensures w == Normal(v) <==> (Same(v, w) && KeysInOrder(w))
  {
    EncodeIsPlainNormal(v);
    NormalIsInOrder(v);
    OrderedIsNormal(Normal(v));
    SameIsNormalEquality(v, w);
    if KeysInOrder(w) { OrderedIsNormal(w); }
  }

  // ---------- Strings ----------

  /** Surrogates come in pairs, and nothing is a control character. */
  predicate Printable(t: Text) {
    if t == [] then true
    else if IsHigh(t[0]) then |t| > 1 && IsLow(t[1]) && Printable(t[2..])
    else !IsLow(t[0]) && t[0] >= 32 && Printable(t[1..])
  }

  lemma {:induction false} PrintableTogether(a: Text, b: Text)
    requires Printable(a) && Printable(b)
    ensures Printable(a + b)
  {
    if a == [] {
      assert a + b == b;
    } else if IsHigh(a[0]) {
      PrintableTogether(a[2..], b);
      assert (a + b)[2..] == a[2..] + b;
    } else {
      PrintableTogether(a[1..], b);
      assert (a + b)[1..] == a[1..] + b;
    }
  }

  lemma {:induction false} PlainUnits(t: Text)
    requires forall i :: 0 <= i < |t| ==> 32 <= t[i] < 0xD800
    ensures Printable(t)
  {
    if t != [] { PlainUnits(t[1..]); }
  }

  lemma EscapeUnitIsPrintable(u: Unit)
    ensures Printable(EscapeUnit(u))
    ensures |EscapeUnit(u)| == 1 <==> EscapeUnit(u) == [u]
  {
    var t := EscapeUnit(u);
    if |t| > 1 { PlainUnits(t); } else { assert t == [u] && t[1..] == []; }
  }

  /** A string is written without control characters and with its surrogates in pairs, whatever it holds. */
  lemma {:induction false} EscapeIsPrintable(s: Text)
    ensures Printable(Escape(s))
  {
    if s != [] {
      if |s| > 1 && IsHigh(s[0]) && IsLow(s[1]) {
        EscapeIsPrintable(s[2..]);
        assert [s[0], s[1]][2..] == [];
        PrintableTogether([s[0], s[1]], Escape(s[2..]));
      } else {
        EscapeIsPrintable(s[1..]);
        EscapeUnitIsPrintable(s[0]);
        PrintableTogether(EscapeUnit(s[0]), Escape(s[1..]));
      }
    }
  }
}
