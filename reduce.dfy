/**
 * The KeyVault certificate reduction (`reduceForKeyVaultCertificate`).
 *
 * A KeyVault certificate appears as two control-plane resources, a key and a secret with
 * the same trailing name. The pass scans the set in order: other resources are copied,
 * the first half seen for a name is held pending, the next half with that name replaces
 * the pending entry by one certificate resource. Halves still pending at the end are
 * appended in the order of Go's map iteration, which is unspecified.
 *
 * `Scan` is that scan; `IsReduction(input, output)` says which outputs the pass may produce.
 */
module Reduce {
  import opened Wrappers
  import opened Strings
  import opened Armid
  import opened Resources

  const KeysRoute: string := "/Microsoft.KeyVault/vaults/keys"
  const SecretsRoute: string := "/Microsoft.KeyVault/vaults/secrets"
  const CertificatesType: string := "certificates"

  /** A key or a secret of a vault, compared case-insensitively on the route scope. */
  predicate IsKeyVaultHalf(id: ArmId) {
    EqualFold(RouteScopeString(id), KeysRoute) || EqualFold(RouteScopeString(id), SecretsRoute)
  }

  /** No resource of `rs` is a key or a secret. */
  predicate NoHalves(rs: seq<AzureResource>) {
    forall i :: 0 <= i < |rs| ==> !IsKeyVaultHalf(rs[i].id)
  }

  /** The last attribute name: the name the two halves share. */
  function TrailingName(id: ArmId): string {
    Names(id)[|Names(id)| - 1]
  }

  /** The merged resource: the later half's id with its last type set to `certificates`, nothing else. */
  function Certificate(half: AzureResource): AzureResource {
    Plain(WithLastType(half.id, CertificatesType))
  }

  /** `newResoruces`, `pending`, and how many pairs have been merged so far. */
  datatype ReduceState = ReduceState(emitted: seq<AzureResource>, pending: map<string, AzureResource>, merges: nat)

  const Start := ReduceState([], map[], 0)

  /** One iteration of the scan loop. */
  function Step(s: ReduceState, res: AzureResource): ReduceState {
    if !IsKeyVaultHalf(res.id) then s.(emitted := s.emitted + [res])
    else
      var name := TrailingName(res.id);
      if name !in s.pending then s.(pending := s.pending[name := res])
      else ReduceState(s.emitted + [Certificate(res)], s.pending - {name}, s.merges + 1)
  }

  /** The scan loop run over `rs` from state `s`. */
  function ScanFrom(s: ReduceState, rs: seq<AzureResource>): ReduceState
    decreases |rs|
  {
    if rs == [] then s else Step(ScanFrom(s, rs[..|rs| - 1]), rs[|rs| - 1])
  }

  /** The scan loop run over the whole set. */
  function Scan(rs: seq<AzureResource>): ReduceState {
    ScanFrom(Start, rs)
  }

  /** Every pending entry is a half filed under its own trailing name. */
  predicate KeyedByName(pending: map<string, AzureResource>) {
    forall k :: k in pending ==> IsKeyVaultHalf(pending[k].id) && TrailingName(pending[k].id) == k
  }

  /**
   * The outputs the pass may produce from `input`: everything the scan emitted, in order,
   * followed by the pending halves in some order.
   */
  predicate IsReduction(input: seq<AzureResource>, output: seq<AzureResource>) {
    var s := Scan(input);
    && |output| == |s.emitted| + |s.pending|
    && output[..|s.emitted|] == s.emitted
    && multiset(output[|s.emitted|..]) == multiset(s.pending.Values)
  }

  /**
   * The leftover loop, `for _, res := range pending`: appends every pending half once,
   * in an order this model leaves open (Go's map iteration order).
   */
  method AppendPending(emitted: seq<AzureResource>, pending: map<string, AzureResource>)
    returns (out: seq<AzureResource>)
    requires KeyedByName(pending)
    ensures |out| == |emitted| + |pending|
    ensures out[..|emitted|] == emitted
    ensures multiset(out[|emitted|..]) == multiset(pending.Values)
  {
    var rest := pending;
    out := emitted;
    while rest != map[]
      invariant KeyedByName(rest)
      invariant |emitted| <= |out| && |rest| <= |pending|
      invariant |out| == |emitted| + |pending| - |rest|
      invariant out[..|emitted|] == emitted
      invariant multiset(out[|emitted|..]) + multiset(rest.Values) == multiset(pending.Values)
      decreases |rest|
    {
      var k :| k in rest;
      AppendPendingStep(emitted, pending, out, rest, k);
      out := out + [rest[k]];
      rest := rest - {k};
    }
  }

  /** One turn of the leftover loop keeps its invariant. */
  lemma AppendPendingStep(emitted: seq<AzureResource>, pending: map<string, AzureResource>,
                          out: seq<AzureResource>, rest: map<string, AzureResource>, k: string)
    requires KeyedByName(rest) && k in rest
    requires |emitted| <= |out| && out[..|emitted|] == emitted
    requires multiset(out[|emitted|..]) + multiset(rest.Values) == multiset(pending.Values)
    ensures KeyedByName(rest - {k}) && |rest - {k}| == |rest| - 1
    ensures (out + [rest[k]])[..|emitted|] == emitted
    ensures multiset((out + [rest[k]])[|emitted|..]) + multiset((rest - {k}).Values) == multiset(pending.Values)
  {
    var v := rest[k];
    RemoveKeyedValue(rest, k);
    MultisetOfSetRemove(rest.Values, v);
    assert (rest - {k}).Keys == rest.Keys - {k};
    assert (out + [v])[..|emitted|] == out[..|emitted|];
    assert (out + [v])[|emitted|..] == out[|emitted|..] + [v];
  }

  // ---- the scan, step by step ----

  lemma ScanPrefixStep(rs: seq<AzureResource>, i: nat)
    requires i < |rs|
    ensures Scan(rs[..i + 1]) == Step(Scan(rs[..i]), rs[i])
  {
    assert rs[..i + 1][..i] == rs[..i];
  }

  lemma {:induction false} ScanFromAppend(s: ReduceState, a: seq<AzureResource>, b: seq<AzureResource>)
    ensures ScanFrom(s, a + b) == ScanFrom(ScanFrom(s, a), b)
    decreases |b|
  {
    if b == [] {
      assert a + b == a;
    } else {
      assert (a + b)[..|a + b| - 1] == a + b[..|b| - 1];
      ScanFromAppend(s, a, b[..|b| - 1]);
    }
  }

  /** Pending entries are halves of the input, each filed under its trailing name. */
  lemma {:induction false} PendingKeyedByName(rs: seq<AzureResource>)
    ensures KeyedByName(Scan(rs).pending)
    ensures forall k :: k in Scan(rs).pending ==> Scan(rs).pending[k] in rs
  {
    if rs != [] {
      var init := rs[..|rs| - 1];
      PendingKeyedByName(init);
      forall k | k in Scan(init).pending ensures Scan(init).pending[k] in rs {
        assert Scan(init).pending[k] in init;
      }
    }
  }

  /** Every input is emitted, held pending, or consumed by a merge that emits one certificate. */
  lemma {:induction false} ReduceCount(rs: seq<AzureResource>)
    ensures |Scan(rs).emitted| + |Scan(rs).pending| + Scan(rs).merges == |rs|
  {
    if rs != [] {
      var init := rs[..|rs| - 1];
      ReduceCount(init);
      var s := Scan(init);
      var res := rs[|rs| - 1];
      if IsKeyVaultHalf(res.id) {
        var name := TrailingName(res.id);
        if name in s.pending {
          assert (s.pending - {name}).Keys == s.pending.Keys - {name};
        } else {
          assert s.pending[name := res].Keys == s.pending.Keys + {name};
        }
      }
    }
  }

  /** The output is shorter than the input by the number of merged pairs. */
  lemma ReductionLength(input: seq<AzureResource>, output: seq<AzureResource>)
    requires IsReduction(input, output)
    ensures |output| == |input| - Scan(input).merges
  {
    ReduceCount(input);
  }

  /** Resources that are not halves are copied to the end of the emitted sequence, unchanged. */
  lemma {:induction false} NoHalvesPassThrough(s: ReduceState, b: seq<AzureResource>)
    requires NoHalves(b)
    ensures ScanFrom(s, b) == s.(emitted := s.emitted + b)
    decreases |b|
  {
    if b != [] {
      NoHalvesPassThrough(s, b[..|b| - 1]);
      assert s.emitted + b[..|b| - 1] + [b[|b| - 1]] == s.emitted + b;
    }
  }

  /** What was already emitted plays no part in the rest of the scan. */
  lemma {:induction false} EmittedShift(s: ReduceState, p: seq<AzureResource>, b: seq<AzureResource>)
    ensures ScanFrom(s.(emitted := p + s.emitted), b)
         == ScanFrom(s, b).(emitted := p + ScanFrom(s, b).emitted)
    decreases |b|
  {
    if b != [] {
      EmittedShift(s, p, b[..|b| - 1]);
    }
  }

  /**
   * Pass-through keeps relative order: resources that are not halves, before and after a
   * stretch of the set, surround what that stretch reduces to.
   */
  lemma PassThroughAround(a: seq<AzureResource>, b: seq<AzureResource>, c: seq<AzureResource>)
    requires NoHalves(a) && NoHalves(c)
    ensures Scan(a + b + c) == Scan(b).(emitted := a + Scan(b).emitted + c)
  {
    ScanFromAppend(Start, a + b, c);
    ScanFromAppend(Start, a, b);
    NoHalvesPassThrough(Start, a);
    assert ScanFrom(Start, a) == Start.(emitted := a + Start.emitted);
    EmittedShift(Start, a, b);
    NoHalvesPassThrough(Scan(a + b), c);
  }

  /**
   * Wherever it stands, a resource that is not a half is emitted right after what the resources
   * before it emitted, and what the resources after it emit follows it.
   */
  lemma PassThroughAt(a: seq<AzureResource>, x: AzureResource, b: seq<AzureResource>)
    requires !IsKeyVaultHalf(x.id)
    ensures var rest := ScanFrom(Scan(a).(emitted := []), b);
            Scan(a + [x] + b) == rest.(emitted := Scan(a).emitted + [x] + rest.emitted)
  {
    var s0 := Scan(a).(emitted := []);
    ScanFromAppend(Start, a + [x], b);
    assert (a + [x])[..|a|] == a;
    assert Scan(a + [x]) == s0.(emitted := (Scan(a).emitted + [x]) + s0.emitted);
    EmittedShift(s0, Scan(a).emitted + [x], b);
  }

  /** After any prefix, a half whose trailing name is not pending is filed under it and not emitted. */
  lemma FirstHalfAt(a: seq<AzureResource>, y: AzureResource)
    requires IsKeyVaultHalf(y.id) && TrailingName(y.id) !in Scan(a).pending
    ensures Scan(a + [y]) == Scan(a).(pending := Scan(a).pending[TrailingName(y.id) := y])
  {
    assert (a + [y])[..|a|] == a;
  }

  /**
   * After any prefix, a half whose trailing name is pending clears that entry and emits exactly
   * one resource, the certificate made from this later half.
   */
  lemma PairAt(a: seq<AzureResource>, y: AzureResource)
    requires IsKeyVaultHalf(y.id) && TrailingName(y.id) in Scan(a).pending
    ensures Scan(a + [y]) == ReduceState(Scan(a).emitted + [Certificate(y)],
                                         Scan(a).pending - {TrailingName(y.id)},
                                         Scan(a).merges + 1)
  {
    assert (a + [y])[..|a|] == a;
  }

  /** A set without keys or secrets is left exactly as it is. */
  lemma ReduceWithoutHalves(input: seq<AzureResource>, output: seq<AzureResource>)
    requires NoHalves(input)
    ensures IsReduction(input, output) <==> output == input
  {
    NoHalvesPassThrough(Start, input);
  }

  /** The number of keys and secrets in `rs` whose trailing name is `n`. */
  function HalvesNamed(rs: seq<AzureResource>, n: string): nat {
    if rs == [] then 0
    else HalvesNamed(rs[..|rs| - 1], n)
         + (if IsKeyVaultHalf(rs[|rs| - 1].id) && TrailingName(rs[|rs| - 1].id) == n then 1 else 0)
  }

  /**
   * Pairing is keyed on the trailing name alone: a name is left pending exactly when an
   * odd number of halves carry it, whatever vault or kind they belong to.
   */
  lemma {:induction false} PendingParity(rs: seq<AzureResource>, n: string)
    ensures n in Scan(rs).pending <==> HalvesNamed(rs, n) % 2 == 1
  {
    if rs != [] {
      PendingParity(rs[..|rs| - 1], n);
    }
  }

  /** A key and a secret with the same trailing name become one certificate, and nothing else. */
  lemma PairBecomesCertificate(x: AzureResource, y: AzureResource, output: seq<AzureResource>)
    requires IsKeyVaultHalf(x.id) && IsKeyVaultHalf(y.id) && TrailingName(x.id) == TrailingName(y.id)
    ensures IsReduction([x, y], output) <==> output == [Certificate(y)]
  {
    var name := TrailingName(x.id);
    ScanSingle(x);
    assert [x, y][..1] == [x];
    assert map[name := x] - {name} == map[];
    assert Scan([x, y]) == ReduceState([Certificate(y)], map[], 1);
  }

  lemma ScanSingle(x: AzureResource)
    requires IsKeyVaultHalf(x.id)
    ensures Scan([x]) == ReduceState([], map[TrailingName(x.id) := x], 0)
  {
    assert [x][..0] == [];
    assert ScanFrom(Start, []) == Start;
    assert Scan([x]) == Step(Start, x);
  }

  /** A lone half is held pending and then passed through unchanged. */
  lemma LoneHalfPassesThrough(x: AzureResource, output: seq<AzureResource>)
    requires IsKeyVaultHalf(x.id)
    ensures IsReduction([x], output) <==> output == [x]
  {
    var name := TrailingName(x.id);
    ScanSingle(x);
    var m := map[name := x];
    assert name in m && m[name] == x;
    assert x in m.Values;
    assert map[name := x].Values == {x};
    if IsReduction([x], output) {
      assert output[0..] == output;
      assert multiset(output) == multiset{x};
      assert output == [output[0]];
      assert output[0] in multiset(output);
    }
  }

  /** A half of the set is counted under its own trailing name. */
  lemma {:induction false} HalfCounted(rs: seq<AzureResource>, x: AzureResource)
    requires IsKeyVaultHalf(x.id) && x in rs
    ensures HalvesNamed(rs, TrailingName(x.id)) >= 1
  {
    var init := rs[..|rs| - 1];
    if x != rs[|rs| - 1] {
      assert x in init by {
        var i :| 0 <= i < |rs| && rs[i] == x;
        assert init[i] == x;
      }
      HalfCounted(init, x);
    }
  }

  /** The only half carrying its trailing name is the one left pending under that name. */
  lemma {:induction false} UniqueHalfIsPending(rs: seq<AzureResource>, x: AzureResource)
    requires IsKeyVaultHalf(x.id) && x in rs && HalvesNamed(rs, TrailingName(x.id)) == 1
    ensures TrailingName(x.id) in Scan(rs).pending && Scan(rs).pending[TrailingName(x.id)] == x
  {
    var n := TrailingName(x.id);
    var init, last := rs[..|rs| - 1], rs[|rs| - 1];
    assert rs == init + [last];
    if last == x {
      PendingParity(init, n);
    } else {
      assert x in init by {
        var i :| 0 <= i < |rs| && rs[i] == x;
        assert init[i] == x;
      }
      HalfCounted(init, x);
      UniqueHalfIsPending(init, x);
    }
  }

  /**
   * In any set, a half whose trailing name no other half carries is not emitted by the
   * scan: it is held pending and is among the leftovers appended unchanged.
   */
  lemma UniqueHalfPassesThrough(rs: seq<AzureResource>, x: AzureResource, output: seq<AzureResource>)
    requires IsKeyVaultHalf(x.id) && x in rs && HalvesNamed(rs, TrailingName(x.id)) == 1
    requires IsReduction(rs, output)
    ensures x !in Scan(rs).emitted
    ensures x in output[|Scan(rs).emitted|..]
  {
    UniqueHalfIsPending(rs, x);
    EmittedHasNoHalves(rs);
    var s := Scan(rs);
    assert x in s.pending.Values;
    assert x in multiset(s.pending.Values);
    assert x in multiset(output[|s.emitted|..]);
  }

  /** A merged certificate is never itself a key or a secret. */
  lemma CertificateIsNotHalf(id: ArmId)
    ensures !IsKeyVaultHalf(WithLastType(id, CertificatesType))
  {
    var c := WithLastType(id, CertificatesType);
    var route := RouteScopeString(c);
    var n := |c.attrTypes|;
    assert c.attrTypes[..n - 1] + [CertificatesType] == c.attrTypes;
    assert route == "/" + c.provider + TypePath(c.attrTypes[..n - 1]) + "/" + CertificatesType;
    assert route[|route| - 2] == 'e';
    assert ToUpper(route)[|route| - 2] == 'E';
    assert ToUpper(KeysRoute)[|KeysRoute| - 2] == 'Y';
    assert ToUpper(SecretsRoute)[|SecretsRoute| - 2] == 'T';
  }

  /** Nothing the scan emits is a key or a secret. */
  lemma {:induction false} EmittedHasNoHalves(rs: seq<AzureResource>)
    ensures NoHalves(Scan(rs).emitted)
  {
    if rs != [] {
      EmittedHasNoHalves(rs[..|rs| - 1]);
      CertificateIsNotHalf(rs[|rs| - 1].id);
    }
  }

  /** Removing a key from a map whose values are filed by name removes exactly its value. */
  lemma RemoveKeyedValue(m: map<string, AzureResource>, k: string)
    requires KeyedByName(m) && k in m
    ensures (m - {k}).Values == m.Values - {m[k]}
    ensures KeyedByName(m - {k})
  {
    forall v | v in m.Values - {m[k]} ensures v in (m - {k}).Values {
      var j :| j in m && m[j] == v;
      assert j != k;
      assert j in m - {k} && (m - {k})[j] == v;
    }
  }

  /**
   * Scanning distinct pending halves, in any order, from a state with nothing pending
   * files each of them again and merges nothing.
   */
  lemma {:induction false} RescanPending(e: seq<AzureResource>, pending: map<string, AzureResource>, l: seq<AzureResource>)
    requires KeyedByName(pending)
    requires multiset(l) == multiset(pending.Values)
    ensures ScanFrom(ReduceState(e, map[], 0), l) == ReduceState(e, pending, 0)
    decreases |l|
  {
    if l != [] {
      var x := l[|l| - 1];
      var init := l[..|l| - 1];
      var k := SplitLast(pending, l);
      var rest := pending - {k};
      RescanPending(e, rest, init);
      assert rest[k := x] == pending;
    }
  }

  /** The last element of `l` is the pending entry of some name; the rest of `l` lists the others. */
  lemma SplitLast(pending: map<string, AzureResource>, l: seq<AzureResource>) returns (k: string)
    requires KeyedByName(pending)
    requires l != [] && multiset(l) == multiset(pending.Values)
    ensures k in pending && pending[k] == l[|l| - 1] && TrailingName(l[|l| - 1].id) == k
    ensures KeyedByName(pending - {k})
    ensures multiset(l[..|l| - 1]) == multiset((pending - {k}).Values)
  {
    var x := l[|l| - 1];
    MultisetDropLast(l);
    assert x in multiset(pending.Values);
    k :| k in pending && pending[k] == x;
    RemoveKeyedValue(pending, k);
    MultisetOfSetRemove(pending.Values, x);
  }

  lemma MultisetDropLast(l: seq<AzureResource>)
    requires l != []
    ensures multiset(l[..|l| - 1]) == multiset(l) - multiset{l[|l| - 1]}
    ensures l[|l| - 1] in multiset(l)
  {
    assert l == l[..|l| - 1] + [l[|l| - 1]];
  }

  lemma MultisetOfSetRemove(s: set<AzureResource>, x: AzureResource)
    requires x in s
    ensures multiset(s - {x}) == multiset(s) - multiset{x}
  {
  }

  /**
   * Reducing is idempotent: scanning any output of the pass emits the same resources,
   * leaves the same halves pending and merges nothing, so reducing that output again
   * allows exactly the outputs the first reduction allowed.
   */
  lemma ReduceIdempotent(input: seq<AzureResource>, output: seq<AzureResource>)
    requires IsReduction(input, output)
    ensures Scan(output) == ReduceState(Scan(input).emitted, Scan(input).pending, 0)
    ensures forall again :: IsReduction(output, again) <==> IsReduction(input, again)
  {
    var s := Scan(input);
    var e := s.emitted;
    var l := output[|e|..];
    assert output == e + l;
    PendingKeyedByName(input);
    EmittedHasNoHalves(input);
    ScanFromAppend(Start, e, l);
    NoHalvesPassThrough(Start, e);
    assert ScanFrom(Start, e) == ReduceState(e, map[], 0);
    RescanPending(e, s.pending, l);
  }
}
