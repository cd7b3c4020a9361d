/**
 * What equality of encodings means: two values have equal encodings exactly when they are the same up to the order of
 * object keys, at every depth. Compare-and-set and unique constraints compare encodings and rely on this.
 */
module CanonicalEquality {
  import opened Canonical
  import opened CanonicalDecoder

  /** Two values are the same up to the order of object keys, at every depth. */
  ghost predicate Same(a: Value, b: Value)
    decreases a
  {
    match a
    case Arr(xs) => b.Arr? && |xs| == |b.items| && forall i :: 0 <= i < |xs| ==> Same(xs[i], b.items[i])
    case Obj(ms) => b.Obj? && SameKeys(ms, b.members) && forall i :: 0 <= i < |ms| ==> SameAt(ms[i], b.members)
    case _ => a == b
  }

  ghost predicate SameKeys(ms: seq<Member>, ns: seq<Member>) {
    forall k :: k in KeysOf(ms) <==> k in KeysOf(ns)
  }

  /** The member's key is also in `ns`, with the same value. */
  ghost predicate SameAt(m: Member, ns: seq<Member>)
    decreases m
  {
    m.key in KeysOf(ns) && Same(m.value, Lookup(ns, m.key))
  }

  // ---------- The key order ----------

  lemma {:induction false} BeforeIsTotal(a: Text, b: Text)
    ensures a == b || Before(a, b) || Before(b, a)
    ensures !(Before(a, b) && Before(b, a))
    ensures !Before(a, a)
  {
    if a != [] && b != [] {
      BeforeIsTotal(a[1..], b[1..]);
      BeforeIsTotal(a[1..], a[1..]);
      if a[0] == b[0] && a[1..] == b[1..] { assert a == [a[0]] + a[1..] && b == [b[0]] + b[1..]; }
    } else if a != [] {
      BeforeIsTotal(a[1..], a[1..]);
    }
  }

  lemma {:induction false} BeforeIsTransitive(a: Text, b: Text, c: Text)
    requires Before(a, b) && Before(b, c)
    ensures Before(a, c)
  {
    if a != [] && a[0] == b[0] == c[0] { BeforeIsTransitive(a[1..], b[1..], c[1..]); }
  }

  predicate Ascending(keys: seq<Text>) {
    forall i, j :: 0 <= i < j < |keys| ==> Before(keys[i], keys[j])
  }

  lemma {:induction false} InsertKeyAscends(k: Text, keys: seq<Text>)
    requires Ascending(keys) && k !in keys
    ensures Ascending(InsertKey(k, keys)) && |InsertKey(k, keys)| == |keys| + 1
  {
    if keys == [] {
    } else if Before(k, keys[0]) {
      forall j | 0 < j < |keys| ensures Before(k, keys[j]) { BeforeIsTransitive(k, keys[0], keys[j]); }
    } else {
      BeforeIsTotal(k, keys[0]);
      InsertKeyAscends(k, keys[1..]);
      InsertKeyElements(k, keys[1..]);
      var tail := InsertKey(k, keys[1..]);
      forall j | 0 <= j < |tail| ensures Before(keys[0], tail[j]) { assert tail[j] in tail; }
    }
  }

  lemma {:induction false} SortKeysAscends(keys: seq<Text>)
    requires Distinct(keys)
    ensures Ascending(SortKeys(keys)) && |SortKeys(keys)| == |keys|
  {
    if keys != [] {
      SortKeysAscends(keys[1..]);
      SortKeysElements(keys[1..]);
      InsertKeyAscends(keys[0], SortKeys(keys[1..]));
    }
  }

  lemma {:induction false} AscendingIsUnique(a: seq<Text>, b: seq<Text>)
    requires Ascending(a) && Ascending(b) && forall k :: k in a <==> k in b
    ensures a == b
  {
    if b != [] { assert b[0] in b; }
    if a != [] {
      assert a[0] in a;
      var i :| 0 <= i < |b| && b[i] == a[0];
      assert b[0] in b;
      var j :| 0 <= j < |a| && a[j] == b[0];
      BeforeIsTotal(a[0], b[0]);
      assert a[0] == b[0];
      BeforeIsTotal(a[0], a[0]);
      assert a == [a[0]] + a[1..] && b == [b[0]] + b[1..];
      assert a[0] !in a[1..] && b[0] !in b[1..];
      forall k ensures k in a[1..] <==> k in b[1..] { assert k in a <==> k == a[0] || k in a[1..]; }
      AscendingIsUnique(a[1..], b[1..]);
    }
  }

  // ---------- Normal forms of objects ----------

  lemma {:induction false} NormalItemsAt(items: seq<Value>, i: nat)
    requires i < |items|
    ensures NormalItems(items)[i] == Normal(items[i])
  {
    if i > 0 {
      NormalItemsAt(items[1..], i - 1);
      assert items[1..][i - 1] == items[i];
    }
  }

  lemma {:induction false} NormalKeysAt(v: Value, keys: seq<Text>, i: nat)
    requires v.Obj? && i < |keys| && forall k :: k in keys ==> k in KeysOf(v.members)
    ensures NormalKeys(v, keys)[i] == Member(keys[i], Normal(Lookup(v.members, keys[i])))
  {
    if i > 0 {
      NormalKeysAt(v, keys[1..], i - 1);
      assert keys[1..][i - 1] == keys[i];
    }
  }

  lemma LookupOfMember(members: seq<Member>, i: nat)
    requires Distinct(KeysOf(members)) && i < |members|
    ensures members[i].key in KeysOf(members) && IndexOf(members, members[i].key) == i
  {
    hide KeysOf, IndexOf;
    var keys := KeysOf(members);
    var key := keys[i];
    var j := IndexOf(members, key);
    assert keys[j] == members[j].key == key;
    DistinctAt(keys, i, j);
  }

  lemma DistinctAt(keys: seq<Text>, i: nat, j: nat)
    requires Distinct(keys) && i < |keys| && j < |keys| && keys[i] == keys[j]
    ensures i == j
  {}

  /** The sorted keys of an object: its keys, once each, ascending. */
  lemma SortedKeys(v: Value)
    requires v.Obj? && Distinct(KeysOf(v.members))
    ensures var keys := SortKeys(KeysOf(v.members));
            && Ascending(keys) && (forall k :: k in keys <==> k in KeysOf(v.members))
            && Normal(v) == Obj(NormalKeys(v, keys))
  {
    SortKeysElements(KeysOf(v.members));
    SortKeysAscends(KeysOf(v.members));
  }

  /** Equal normal forms list the same keys with equal values. */
  lemma NormalKeysEqual(a: Value, b: Value, ka: seq<Text>, kb: seq<Text>)
    requires a.Obj? && (forall k :: k in ka ==> k in KeysOf(a.members))
    requires b.Obj? && (forall k :: k in kb ==> k in KeysOf(b.members))
    ensures NormalKeys(a, ka) == NormalKeys(b, kb) <==>
            ka == kb && forall i :: 0 <= i < |ka| ==>
                Normal(Lookup(a.members, ka[i])) == Normal(Lookup(b.members, ka[i]))
  {
    hide NormalKeys, Normal, IndexOf, KeysOf;
    var na, nb := NormalKeys(a, ka), NormalKeys(b, kb);
    forall i | 0 <= i < |ka|
      ensures na[i] == Member(ka[i], Normal(Lookup(a.members, ka[i])))
    {
      NormalKeysAt(a, ka, i);
    }
    forall i | 0 <= i < |kb|
      ensures nb[i] == Member(kb[i], Normal(Lookup(b.members, kb[i])))
    {
      NormalKeysAt(b, kb, i);
    }
    if na == nb {
      assert |ka| == |kb|;
      forall i | 0 <= i < |ka| ensures ka[i] == kb[i] { assert na[i] == nb[i]; }
      forall i | 0 <= i < |ka|
        ensures Normal(Lookup(a.members, ka[i])) == Normal(Lookup(b.members, ka[i]))
      {
        assert na[i] == nb[i];
      }
    }
  }

  lemma AgreeingKeys(a: Value, b: Value, ka: seq<Text>)
    requires a.Obj? && b.Obj? && Distinct(KeysOf(a.members))
    requires (forall k :: k in ka <==> k in KeysOf(a.members)) && (forall k :: k in ka ==> k in KeysOf(b.members))
    ensures (forall i :: 0 <= i < |ka| ==> Normal(Lookup(a.members, ka[i])) == Normal(Lookup(b.members, ka[i]))) <==>
        NormalsAgree(a.members, b.members)
  {
    hide Normal, IndexOf, KeysOf;
    if forall i :: 0 <= i < |ka| ==> Normal(Lookup(a.members, ka[i])) == Normal(Lookup(b.members, ka[i])) {
      forall i | 0 <= i < |a.members| ensures NormalAt(a.members[i], b.members) {
        LookupOfMember(a.members, i);
        assert a.members[i].key in ka;
      }
    }
    if NormalsAgree(a.members, b.members) {
      forall j | 0 <= j < |ka| ensures Normal(Lookup(a.members, ka[j])) == Normal(Lookup(b.members, ka[j])) {
        assert ka[j] in ka;
        assert NormalAt(a.members[IndexOf(a.members, ka[j])], b.members);
      }
    }
  }

  /** The normal forms of two objects agree exactly when the objects have the same keys with equal normal forms. */
  lemma NormalObjects(a: Value, b: Value)
    requires a.Obj? && b.Obj? && Distinct(KeysOf(a.members)) && Distinct(KeysOf(b.members))
    ensures Normal(a) == Normal(b) <==> (SameKeys(a.members, b.members) && NormalsAgree(a.members, b.members))
  {
    SortedKeys(a);
    SortedKeys(b);
    hide Normal, NormalKeys, SortKeys, IndexOf, KeysOf, NormalsAgree, Ascending, Distinct, Lookup;
    var ka, kb := SortKeys(KeysOf(a.members)), SortKeys(KeysOf(b.members));
    NormalKeysEqual(a, b, ka, kb);
    if ka == kb { AgreeingKeys(a, b, ka); }
    if SameKeys(a.members, b.members) { AscendingIsUnique(ka, kb); }
  }

  ghost predicate NormalAt(m: Member, ns: seq<Member>) {
    m.key in KeysOf(ns) && Normal(m.value) == Normal(Lookup(ns, m.key))
  }

  ghost predicate NormalsAgree(ms: seq<Member>, ns: seq<Member>) {
    forall i :: 0 <= i < |ms| ==> NormalAt(ms[i], ns)
  }

  /** Values are the same up to key order exactly when their normal forms are equal. */
  lemma {:induction false} SameIsNormalEquality(a: Value, b: Value)
    requires WellFormed(a) && WellFormed(b)
    ensures Same(a, b) <==> Normal(a) == Normal(b)
    decreases a
  {
    match a
    case Arr(xs) =>
      if b.Arr? && |xs| == |b.items| {
        forall i | 0 <= i < |xs|
          ensures (Same(xs[i], b.items[i]) <==> Normal(xs[i]) == Normal(b.items[i]))
          ensures NormalItems(xs)[i] == Normal(xs[i]) && NormalItems(b.items)[i] == Normal(b.items[i])
        {
          SameIsNormalEquality(xs[i], b.items[i]);
          NormalItemsAt(xs, i);
          NormalItemsAt(b.items, i);
        }
      }
    case Obj(ms) =>
      if b.Obj? {
        NormalObjects(a, b);
        forall i | 0 <= i < |ms| ensures SameAt(ms[i], b.members) <==> NormalAt(ms[i], b.members) {
          if ms[i].key in KeysOf(b.members) {
            SameIsNormalEquality(ms[i].value, Lookup(b.members, ms[i].key));
          }
        }
      }
    case _ =>
  }

  /** Equal encodings mean equal values, up to the order of object keys. */
  lemma EncodingIsInjective(a: Value, b: Value)
    requires WellFormed(a) && WellFormed(b)
    ensures Encode(a) == Encode(b) <==> Same(a, b)
  {
    DecodeEncode(a);
    DecodeEncode(b);
    EncodeIsPlainNormal(a);
    EncodeIsPlainNormal(b);
    SameIsNormalEquality(a, b);
  }
}
