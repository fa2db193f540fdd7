/**
 * Identifier bookkeeping for the workflow: the case-folded keys of a run of
 * devices, the filter that drops every device whose identifier equals a
 * given one ignoring case, and why "no two devices with the same key"
 * survives admitting and filtering devices.
 */
module Identifiers {
  import opened Strings
  import opened Distinct
  import opened Devices

  /** The case-folded identifiers of `ds`, in order. */
  function Keys(ds: seq<Device>): seq<string>
  {
    seq(|ds|, i requires 0 <= i < |ds| => Key(ds[i].identifier))
  }

  /** No two different devices of `ds` have identifiers equal ignoring case. */
  predicate KeysInjective(ds: seq<Device>)
  {
    forall x, y :: x in ds && y in ds && Key(x.identifier) == Key(y.identifier) ==> x == y
  }

  /** Different devices with injective keys have different keys. */
  lemma InjectiveKeysNoDup(ds: seq<Device>)
    requires NoDup(ds) && KeysInjective(ds)
    ensures NoDup(Keys(ds))
  {
    forall i, j | 0 <= i < j < |ds| ensures Keys(ds)[i] != Keys(ds)[j] {
      assert ds[i] in ds && ds[j] in ds;
    }
  }

  /** A device no live device matches can join without breaking injectivity. */
  lemma InjectiveAfterAdding(ds: seq<Device>, d: Device)
    requires KeysInjective(ds) && MatchCount(ds, d.identifier) == 0
    ensures KeysInjective(ds + [d])
  {
    forall x | x in ds && Key(x.identifier) == Key(d.identifier) ensures false {
      MatchCountPositive(ds, d.identifier, x);
    }
  }

  /** Distinct keys mean no two of the devices have identifiers equal ignoring case. */
  lemma UniqueKeysUniqueIdentifiers(ds: seq<Device>)
    requires NoDup(Keys(ds))
    ensures forall i, j :: 0 <= i < j < |ds| ==> !EqualsIgnoreCase(ds[i].identifier, ds[j].identifier)
  {
    forall i, j | 0 <= i < j < |ds| ensures !EqualsIgnoreCase(ds[i].identifier, ds[j].identifier) {
      assert Keys(ds)[i] != Keys(ds)[j];
    }
  }

  /** How many of `ds` have an identifier equal to `id` ignoring case. */
  function MatchCount(ds: seq<Device>, id: string): nat
  {
    if ds == [] then 0
    else (if EqualsIgnoreCase(ds[0].identifier, id) then 1 else 0) + MatchCount(ds[1..], id)
  }

  /**
   * `removeIf` with the test "identifier equals `id` ignoring case": the
   * devices that do not match, in their original order.
   */
  function Without(ds: seq<Device>, id: string): (r: seq<Device>)
    ensures forall x :: x in r ==> x in ds && !EqualsIgnoreCase(x.identifier, id)
    ensures forall x :: x in ds && !EqualsIgnoreCase(x.identifier, id) ==> x in r
    ensures |r| == |ds| - MatchCount(ds, id)
  {
    if ds == [] then []
    else (if EqualsIgnoreCase(ds[0].identifier, id) then [] else [ds[0]]) + Without(ds[1..], id)
  }

  /** The filter works piece by piece, so it keeps the relative order of what it keeps. */
  lemma {:induction false} WithoutConcat(a: seq<Device>, b: seq<Device>, id: string)
    ensures Without(a + b, id) == Without(a, id) + Without(b, id)
  {
    if a != [] {
      assert (a + b)[1..] == a[1..] + b;
      WithoutConcat(a[1..], b, id);
    } else {
      assert a + b == b;
    }
  }

  lemma {:induction false} MatchCountConcat(a: seq<Device>, b: seq<Device>, id: string)
    ensures MatchCount(a + b, id) == MatchCount(a, id) + MatchCount(b, id)
  {
    if a != [] {
      assert (a + b)[1..] == a[1..] + b;
      MatchCountConcat(a[1..], b, id);
    } else {
      assert a + b == b;
    }
  }

  /** Filtering by either of two identifiers equal ignoring case removes the same devices. */
  lemma {:induction false} WithoutEquivalentIds(ds: seq<Device>, a: string, b: string)
    requires EqualsIgnoreCase(a, b)
    ensures Without(ds, a) == Without(ds, b)
  {
    if ds != [] {
      WithoutEquivalentIds(ds[1..], a, b);
    }
  }

  /** With distinct keys, at most one device matches any identifier. */
  lemma {:induction false} AtMostOneMatch(ds: seq<Device>, id: string)
    requires NoDup(Keys(ds))
    ensures MatchCount(ds, id) <= 1
  {
    if ds != [] {
      assert Keys(ds) == [Key(ds[0].identifier)] + Keys(ds[1..]);
      assert NoDup(Keys(ds[1..])) by {
        forall i, j | 0 <= i < j < |ds| - 1 ensures Keys(ds[1..])[i] != Keys(ds[1..])[j] {
          assert Keys(ds)[i + 1] != Keys(ds)[j + 1];
        }
      }
      AtMostOneMatch(ds[1..], id);
      if EqualsIgnoreCase(ds[0].identifier, id) {
        forall j | 0 <= j < |ds| - 1 ensures !EqualsIgnoreCase(ds[1..][j].identifier, id) {
          assert Keys(ds)[0] != Keys(ds)[j + 1];
        }
        MatchCountNone(ds[1..], id);
      }
    }
  }

  /** When no device matches, the count is zero. */
  lemma {:induction false} MatchCountNone(ds: seq<Device>, id: string)
    requires forall i :: 0 <= i < |ds| ==> !EqualsIgnoreCase(ds[i].identifier, id)
    ensures MatchCount(ds, id) == 0
  {
    if ds != [] {
      MatchCountNone(ds[1..], id);
    }
  }

  /** A device in the sequence that matches makes the count positive. */
  lemma {:induction false} MatchCountPositive(ds: seq<Device>, id: string, d: Device)
    requires d in ds && EqualsIgnoreCase(d.identifier, id)
    ensures MatchCount(ds, id) >= 1
  {
    if ds[0] != d {
      MatchCountPositive(ds[1..], id, d);
    }
  }

  /** The filter keeps a sequence free of repeats. */
  lemma {:induction false} NoDupWithout(ds: seq<Device>, id: string)
    requires NoDup(ds)
    ensures NoDup(Without(ds, id))
  {
    if ds != [] {
      assert NoDup(ds[1..]) by {
        forall i, j | 0 <= i < j < |ds| - 1 ensures ds[1..][i] != ds[1..][j] {
          assert ds[i + 1] != ds[j + 1];
        }
      }
      NoDupWithout(ds[1..], id);
      if !EqualsIgnoreCase(ds[0].identifier, id) {
        assert ds[0] !in ds[1..];
        NoDupConcat([ds[0]], Without(ds[1..], id));
      }
    }
  }

  /** After the filter nothing matches the identifier. */
  lemma NothingMatchesAfterFilter(ds: seq<Device>, id: string)
    ensures MatchCount(Without(ds, id), id) == 0
  {
    var r := Without(ds, id);
    forall i | 0 <= i < |r| ensures !EqualsIgnoreCase(r[i].identifier, id) {
      assert r[i] in r;
    }
    MatchCountNone(r, id);
  }
}
