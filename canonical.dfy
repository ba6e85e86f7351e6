/**
 * The bank gateway's length-prefixed canonical string: for each key of a
 * fixed list, in order, the value's byte length in decimal followed by the
 * value, or a single "-" when the value is absent or empty.
 */
module Canonical {
  import opened Wrappers
  import opened PhpStrings

  /** `$array[$key]` where a missing key reads as null. */
  function Lookup<K(==)>(m: map<K, string>, k: K): (v: Option<string>)
    ensures v.Some? <==> k in m
    ensures v.Some? ==> v.value == m[k]
  {
    if k in m then Some(m[k]) else None
  }

  /** One key's contribution to the canonical string. */
  function Segment(v: Option<string>): string
  {
    if v.Some? && ByteLength(v.value) > 0 then Decimal(ByteLength(v.value)) + v.value else "-"
  }

  /**
   * A segment is "-" exactly when the value is absent or empty; otherwise
   * it starts with a non-zero digit, so it can never be mistaken for "-".
   */
  lemma SegmentCases(v: Option<string>)
    ensures Segment(v) == "-" <==> v.None? || v.value == ""
    ensures v.Some? && v.value != "" ==>
      Segment(v) == Decimal(ByteLength(v.value)) + v.value && '1' <= Segment(v)[0] <= '9'
  {
    if v.Some? && v.value != "" {
      var d := Decimal(ByteLength(v.value));
      assert (d + v.value)[0] == d[0];
    }
  }

  /** The canonical string of the values `m` holds under `keys`, in key order. */
  function LengthPrefixed<K(==)>(keys: seq<K>, m: map<K, string>): string
  {
    if keys == [] then "" else Segment(Lookup(m, keys[0])) + LengthPrefixed(keys[1..], m)
  }

  /** The source's foreach loop that appends one segment per key. */
  method Encode<K(==)>(keys: seq<K>, m: map<K, string>) returns (s: string)
    ensures s == LengthPrefixed(keys, m)
  {
    s := "";
    for i := 0 to |keys|
      invariant s == LengthPrefixed(keys[..i], m)
    {
      ghost var before := s;
      var key := keys[i];
      if key in m && ByteLength(m[key]) > 0 {
        s := s + (Decimal(ByteLength(m[key])) + m[key]);
      } else {
        s := s + "-";
      }
      assert s == before + Segment(Lookup(m, key));
      LengthPrefixedSnoc(keys[..i], key, m);
      assert keys[..i] + [key] == keys[..i + 1];
    }
    assert keys[..|keys|] == keys;
  }

  /** Encoding a concatenated key list concatenates the encodings. */
  lemma {:induction false} LengthPrefixedAppend<K>(a: seq<K>, b: seq<K>, m: map<K, string>)
    ensures LengthPrefixed(a + b, m) == LengthPrefixed(a, m) + LengthPrefixed(b, m)
    decreases |a|
  {
    if a == [] {
      assert a + b == b;
    } else {
      assert (a + b)[1..] == a[1..] + b;
      assert (a + b)[0] == a[0];
      LengthPrefixedAppend(a[1..], b, m);
    }
  }

  /** One more key appends one more segment. */
  lemma LengthPrefixedSnoc<K>(keys: seq<K>, k: K, m: map<K, string>)
    ensures LengthPrefixed(keys + [k], m) == LengthPrefixed(keys, m) + Segment(Lookup(m, k))
  {
    LengthPrefixedAppend(keys, [k], m);
    assert [k][1..] == [];
  }

  /**
   * Key i contributes exactly its own segment, at a position fixed by the
   * keys before it; the keys after it are encoded as if it were not there.
   */
  lemma LengthPrefixedAt<K>(keys: seq<K>, m: map<K, string>, i: nat)
    requires i < |keys|
    ensures LengthPrefixed(keys, m)
         == LengthPrefixed(keys[..i], m) + Segment(Lookup(m, keys[i])) + LengthPrefixed(keys[i + 1..], m)
  {
    var b := keys[i..];
    assert keys == keys[..i] + b;
    LengthPrefixedAppend(keys[..i], b, m);
    assert b[0] == keys[i];
    assert b[1..] == keys[i + 1..];
  }

  /** An absent or empty value is one "-" and shifts nothing after it. */
  lemma AbsentIsDash<K>(keys: seq<K>, m: map<K, string>, i: nat)
    requires i < |keys|
    requires keys[i] !in m || m[keys[i]] == ""
    ensures LengthPrefixed(keys, m) == LengthPrefixed(keys[..i], m) + "-" + LengthPrefixed(keys[i + 1..], m)
    ensures LengthPrefixed(keys, m) == LengthPrefixed(keys, m - {keys[i]})
  {
    LengthPrefixedAt(keys, m, i);
    SegmentCases(Lookup(m, keys[i]));
    var m' := m - {keys[i]};
    forall j | 0 <= j < |keys| ensures Segment(Lookup(m, keys[j])) == Segment(Lookup(m', keys[j])) {
      if keys[j] == keys[i] {
        SegmentCases(Lookup(m, keys[j]));
        SegmentCases(Lookup(m', keys[j]));
      } else {
        assert Lookup(m, keys[j]) == Lookup(m', keys[j]);
      }
    }
    SegmentsDecide(keys, m, m');
  }

  /** The encoding depends on the map only through the segments of the listed keys. */
  lemma {:induction false} SegmentsDecide<K>(keys: seq<K>, m1: map<K, string>, m2: map<K, string>)
    requires forall j | 0 <= j < |keys| :: Segment(Lookup(m1, keys[j])) == Segment(Lookup(m2, keys[j]))
    ensures LengthPrefixed(keys, m1) == LengthPrefixed(keys, m2)
    decreases |keys|
  {
    if keys != [] {
      var rest := keys[1..];
      forall j | 0 <= j < |rest| ensures Segment(Lookup(m1, rest[j])) == Segment(Lookup(m2, rest[j])) {
        assert rest[j] == keys[j + 1];
      }
      SegmentsDecide(rest, m1, m2);
    }
  }

  /** Values under keys outside the list do not change the canonical string. */
  lemma OtherKeysIgnored<K>(keys: seq<K>, m: map<K, string>, k: K, v: string)
    requires k !in keys
    ensures LengthPrefixed(keys, m[k := v]) == LengthPrefixed(keys, m)
    ensures LengthPrefixed(keys, m - {k}) == LengthPrefixed(keys, m)
  {
    forall j | 0 <= j < |keys| ensures Segment(Lookup(m[k := v], keys[j])) == Segment(Lookup(m, keys[j])) {
      assert keys[j] != k;
    }
    SegmentsDecide(keys, m[k := v], m);
    forall j | 0 <= j < |keys| ensures Segment(Lookup(m - {k}, keys[j])) == Segment(Lookup(m, keys[j])) {
      assert keys[j] != k;
    }
    SegmentsDecide(keys, m - {k}, m);
  }

  /** Every key contributes at least one character. */
  lemma {:induction false} LengthPrefixedLength<K>(keys: seq<K>, m: map<K, string>)
    ensures |LengthPrefixed(keys, m)| >= |keys|
    decreases |keys|
  {
    if keys != [] {
      LengthPrefixedLength(keys[1..], m);
      SegmentCases(Lookup(m, keys[0]));
    }
  }

  /**
   * Two key lists that look up the same values position by position give
   * the same canonical string, whatever the keys' own type.
   */
  lemma {:induction false} RenamedKeys<A, B>(ka: seq<A>, ma: map<A, string>, kb: seq<B>, mb: map<B, string>)
    requires |ka| == |kb|
    requires forall j | 0 <= j < |ka| :: Lookup(ma, ka[j]) == Lookup(mb, kb[j])
    ensures LengthPrefixed(ka, ma) == LengthPrefixed(kb, mb)
    decreases |ka|
  {
    if ka != [] {
      assert Lookup(ma, ka[0]) == Lookup(mb, kb[0]);
      forall j | 0 <= j < |ka| - 1 ensures Lookup(ma, ka[1..][j]) == Lookup(mb, kb[1..][j]) {
        assert ka[1..][j] == ka[j + 1] && kb[1..][j] == kb[j + 1];
      }
      RenamedKeys(ka[1..], ma, kb[1..], mb);
    }
  }

  /** Keys none of which the map holds encode as one "-" each. */
  lemma {:induction false} DashesForAbsent<K>(keys: seq<K>, m: map<K, string>)
    requires forall i | 0 <= i < |keys| :: keys[i] !in m
    ensures LengthPrefixed(keys, m) == seq(|keys|, _ => '-')
    decreases |keys|
  {
    if keys != [] {
      forall i | 0 <= i < |keys| - 1 ensures keys[1..][i] !in m {
        assert keys[1..][i] == keys[i + 1];
      }
      DashesForAbsent(keys[1..], m);
      assert keys[0] !in m;
      assert seq(|keys|, _ => '-') == "-" + seq(|keys| - 1, _ => '-');
    }
  }
}
