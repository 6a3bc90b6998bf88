/** Expanding a target set and a repetition count into the ordered list of
    GET requests: `n` full passes over the set, concatenated in order. */
module WorkList {
  import opened Types
  import opened Arith

  /** One GET request per URI, in order. */
  function Gets(urls: seq<Uri>): (r: seq<Request>)
    ensures |r| == |urls|
    ensures forall i :: 0 <= i < |urls| ==> r[i] == Get(urls[i])
  {
    seq(|urls|, i requires 0 <= i < |urls| => Get(urls[i]))
  }

  /** The work list of `n` passes over `urls`: the first pass comes first.
      It holds exactly `|urls| * n` requests. */
  function Expand(urls: seq<Uri>, n: nat): (r: seq<Request>)
    ensures |r| == |urls| * n
  {
    if n == 0 then []
    else
      assert |urls| * n == |urls| * (n - 1) + |urls|;
      Gets(urls) + Expand(urls, n - 1)
  }

  lemma ModAfterOnePass(i: nat, m: nat)
    requires 0 < m <= i
    ensures (i - m) % m == i % m
  {
    var q, r := (i - m) / m, (i - m) % m;
    assert (q + 1) * m == q * m + m;
    DivModUnique(i, m, q + 1, r);
  }

  /** Entry `i` of the work list targets `urls[i % |urls|]`: position
      `i % |urls|` of pass `i / |urls|`. */
  lemma {:induction false} ExpandAt(urls: seq<Uri>, n: nat, i: nat)
    requires i < |Expand(urls, n)|
    ensures |urls| > 0
    ensures Expand(urls, n)[i] == Get(urls[i % |urls|])
  {
    var m := |urls|;
    var rest := Expand(urls, n - 1);
    assert Expand(urls, n) == Gets(urls) + rest;
    if i < m {
      DivModUnique(i, m, 0, i);
    } else {
      ExpandAt(urls, n - 1, i - m);
      ModAfterOnePass(i, m);
    }
  }

  /** Both facts together: `|urls| * n` entries, `n` passes in order. */
  lemma ExpandShape(urls: seq<Uri>, n: nat)
    ensures |Expand(urls, n)| == |urls| * n
    ensures |Expand(urls, n)| > 0 ==> |urls| > 0
    ensures forall i :: 0 <= i < |Expand(urls, n)| ==> Expand(urls, n)[i] == Get(urls[i % |urls|])
  {
    forall i | 0 <= i < |Expand(urls, n)|
      ensures Expand(urls, n)[i] == Get(urls[i % |urls|])
    {
      ExpandAt(urls, n, i);
    }
  }

  /** Pass `p` of the work list, positions `p * |urls|` up to the next pass,
      is one GET per URI of the set, in set order. */
  lemma {:induction false} PassIsTargetSet(urls: seq<Uri>, n: nat, p: nat)
    requires p < n
    ensures |urls| * (p + 1) <= |Expand(urls, n)|
    ensures Expand(urls, n)[|urls| * p .. |urls| * (p + 1)] == Gets(urls)
  {
    var m := |urls|;
    var rest := Expand(urls, n - 1);
    assert Expand(urls, n) == Gets(urls) + rest;
    if p == 0 {
      assert m * 0 == 0 && m * 1 == m;
    } else {
      PassIsTargetSet(urls, n - 1, p - 1);
      var lo := m * (p - 1);
      assert m * p == lo + m;
      assert m * (p + 1) == lo + m + m;
    }
  }
}
