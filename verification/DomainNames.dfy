/** The two validators of destination names, in Go and in Swift, against the label
    rules of section 2.3.4 of RFC 1035 restricted to letters, digits and hyphens. */
module DomainNames {
  import opened Words
  import opened Bytes
  import opened Wrappers

  type Host = seq<Byte>

  const MAX_NAME: nat := 253
  const MAX_LABEL: nat := 63
  const DOT: Byte := 46
  const HYPHEN: Byte := 45
  const COLON: Byte := 58

  predicate IsDigit(b: Byte) {
    48 <= b <= 57
  }

  predicate IsUpper(b: Byte) {
    65 <= b <= 90
  }

  predicate IsLower(b: Byte) {
    97 <= b <= 122
  }

  predicate IsNameByte(b: Byte) {
    IsUpper(b) || IsLower(b) || IsDigit(b) || b == HYPHEN
  }

  // ----- What a name is, without splitting it --------------------------------

  /** Outside the name or at a dot: where a label ends. */
  predicate Edge(h: Host, i: int) {
    i < 0 || i >= |h| || h[i] == DOT
  }

  predicate BytesOk(h: Host) {
    forall i :: 0 <= i < |h| ==> h[i] == DOT || IsNameByte(h[i])
  }

  /** A dot or a hyphen has a label's inside on both sides. */
  predicate Inside(h: Host, i: nat) {
    i < |h| && (h[i] == DOT || h[i] == HYPHEN) ==> !Edge(h, i - 1) && !Edge(h, i + 1)
  }

  /** No 64 bytes in a row without a dot. */
  predicate Broken(h: Host, i: nat) {
    i + MAX_LABEL < |h| ==> exists j :: i <= j <= i + MAX_LABEL && h[j] == DOT
  }

  ghost predicate WellLabelled(h: Host) {
    && |h| > 0 && BytesOk(h)
    && (forall i: nat :: Inside(h, i))
    && (forall i: nat :: Broken(h, i))
  }

  predicate NotNumeric(h: Host) {
    exists i :: 0 <= i < |h| && h[i] != DOT && !IsDigit(h[i])
  }

  ghost predicate ValidName(h: Host) {
    |h| <= MAX_NAME && WellLabelled(h) && NotNumeric(h)
  }

  function LowerByte(b: Byte): Byte {
    if IsUpper(b) then b + 32 else b
  }

  function Lower(h: Host): (r: Host)
    ensures |r| == |h| && forall i :: 0 <= i < |h| ==> r[i] == LowerByte(h[i])
  {
    seq(|h|, i requires 0 <= i < |h| => LowerByte(h[i]))
  }

  lemma LowerKeepsLabels(h: Host)
    requires WellLabelled(h)
    ensures WellLabelled(Lower(h))
  {
    var l := Lower(h);
    forall i: nat ensures Inside(l, i) {
      assert Inside(h, i);
    }
    forall i: nat ensures Broken(l, i) {
      assert Broken(h, i);
      if i + MAX_LABEL < |h| {
        var j :| i <= j <= i + MAX_LABEL && h[j] == DOT;
        assert l[j] == DOT;
      }
    }
  }

  lemma LowerKeepsNames(h: Host)
    requires ValidName(h)
    ensures ValidName(Lower(h)) && Lower(Lower(h)) == Lower(h)
  {
    LowerKeepsLabels(h);
    var i :| 0 <= i < |h| && h[i] != DOT && !IsDigit(h[i]);
    assert Lower(h)[i] != DOT && !IsDigit(Lower(h)[i]);
  }

  // ----- Splitting into labels -----------------------------------------------

  function FirstDot(h: Host): (k: nat)
    ensures k <= |h| && (k < |h| ==> h[k] == DOT)
    ensures forall i :: 0 <= i < k ==> h[i] != DOT
  {
    if h == [] || h[0] == DOT then 0 else 1 + FirstDot(h[1..])
  }

  /** The labels between the dots, empty ones included. */
  function Labels(h: Host): (r: seq<Host>)
    ensures |r| > 0
    decreases |h|
  {
    var k := FirstDot(h);
    if k == |h| then [h] else [h[..k]] + Labels(h[k + 1..])
  }

  predicate LabelOk(part: Host) {
    && 0 < |part| <= MAX_LABEL && part[0] != HYPHEN && part[|part| - 1] != HYPHEN
    && forall i :: 0 <= i < |part| ==> IsNameByte(part[i])
  }

  predicate LabelsOk(labels: seq<Host>) {
    forall i :: 0 <= i < |labels| ==> LabelOk(labels[i])
  }

  predicate NonDigitIn(part: Host) {
    exists j :: 0 <= j < |part| && !IsDigit(part[j])
  }

  predicate SomeNonDigit(labels: seq<Host>) {
    exists i :: 0 <= i < |labels| && NonDigitIn(labels[i])
  }

  lemma OneLabelOk(h: Host)
    requires FirstDot(h) == |h| && WellLabelled(h)
    ensures LabelOk(h)
  {
    assert Broken(h, 0);
    assert Inside(h, 0) && Inside(h, |h| - 1);
  }

  lemma OneWellLabelled(h: Host)
    requires FirstDot(h) == |h| && LabelOk(h)
    ensures WellLabelled(h)
  {
    forall i: nat ensures Inside(h, i) {
    }
    forall i: nat ensures Broken(h, i) {
    }
  }

  lemma FirstLabelOk(h: Host)
    requires FirstDot(h) < |h| && WellLabelled(h)
    ensures LabelOk(h[..FirstDot(h)])
  {
    var k := FirstDot(h);
    assert Inside(h, k) && Inside(h, 0) && Broken(h, 0);
    assert k > 0;
    assert Inside(h, k - 1);
  }

  lemma RestInside(h: Host, r: Host, k: nat, i: nat)
    requires k < |h| && h[k] == DOT && r == h[k + 1..] && Inside(h, i + k + 1)
    ensures Inside(r, i)
  {
    if i < |r| {
      assert r[i] == h[i + k + 1];
      assert i > 0 ==> r[i - 1] == h[i + k];
      assert i + 1 < |r| ==> r[i + 1] == h[i + k + 2];
    }
  }

  lemma RestBroken(h: Host, r: Host, k: nat, i: nat)
    requires k < |h| && r == h[k + 1..] && Broken(h, i + k + 1)
    ensures Broken(r, i)
  {
    if i + MAX_LABEL < |r| {
      var j :| i + k + 1 <= j <= i + k + 1 + MAX_LABEL && h[j] == DOT;
      assert r[j - k - 1] == DOT;
    }
  }

  lemma RestWellLabelled(h: Host)
    requires FirstDot(h) < |h| && WellLabelled(h)
    ensures WellLabelled(h[FirstDot(h) + 1..])
  {
    var k := FirstDot(h);
    var r := h[k + 1..];
    assert Inside(h, k);
    assert forall i :: 0 <= i < |r| ==> r[i] == h[i + k + 1];
    forall i: nat ensures Inside(r, i) {
      RestInside(h, r, k, i);
    }
    forall i: nat ensures Broken(r, i) {
      RestBroken(h, r, k, i);
    }
  }

  lemma JoinedInside(h: Host, k: nat, i: nat)
    requires k < |h| && h[k] == DOT && LabelOk(h[..k]) && h[k + 1..] != [] && h[k + 1] != DOT
    requires i > k ==> Inside(h[k + 1..], i - k - 1)
    ensures Inside(h, i)
  {
    if i < k {
      assert h[i] == h[..k][i] && IsNameByte(h[..k][i]);
      assert h[..k][k - 1] == h[k - 1] && h[..k][0] == h[0];
      assert i > 0 ==> IsNameByte(h[..k][i - 1]);
      assert i + 1 < k ==> IsNameByte(h[..k][i + 1]);
    } else if i == k {
      assert IsNameByte(h[..k][k - 1]);
    } else if i < |h| {
      var r := h[k + 1..];
      assert r[i - k - 1] == h[i];
      assert i > k + 1 ==> r[i - k - 2] == h[i - 1];
      assert i + 1 < |h| ==> r[i - k] == h[i + 1];
    }
  }

  lemma JoinedBroken(h: Host, k: nat, i: nat)
    requires k < |h| && h[k] == DOT && k <= MAX_LABEL
    requires i > k ==> Broken(h[k + 1..], i - k - 1)
    ensures Broken(h, i)
  {
    if i > k && i + MAX_LABEL < |h| {
      var r := h[k + 1..];
      var j :| i - k - 1 <= j <= i - k - 1 + MAX_LABEL && r[j] == DOT;
      assert h[j + k + 1] == DOT;
    }
  }

  lemma JoinedWellLabelled(h: Host)
    requires FirstDot(h) < |h| && LabelOk(h[..FirstDot(h)]) && WellLabelled(h[FirstDot(h) + 1..])
    ensures WellLabelled(h)
  {
    var k := FirstDot(h);
    var r := h[k + 1..];
    assert Inside(r, 0) && Edge(r, -1);
    assert r[0] != DOT;
    assert h[k + 1] == r[0];
    forall i | 0 <= i < |h| ensures h[i] == DOT || IsNameByte(h[i]) {
      if i < k {
        assert h[i] == h[..k][i];
      } else if i > k {
        assert h[i] == r[i - k - 1];
      }
    }
    forall i: nat ensures Inside(h, i) {
      JoinedInside(h, k, i);
    }
    forall i: nat ensures Broken(h, i) {
      JoinedBroken(h, k, i);
    }
  }

  lemma OneMoreOk(first: Host, rest: seq<Host>)
    ensures LabelsOk([first] + rest) <==> LabelOk(first) && LabelsOk(rest)
  {
    var all := [first] + rest;
    assert all[0] == first;
    assert forall i :: 0 <= i < |rest| ==> rest[i] == all[i + 1];
  }

  lemma LabelledSplits(h: Host)
    requires FirstDot(h) < |h|
    ensures WellLabelled(h) <==> LabelOk(h[..FirstDot(h)]) && WellLabelled(h[FirstDot(h) + 1..])
  {
    if WellLabelled(h) {
      FirstLabelOk(h);
      RestWellLabelled(h);
    }
    if LabelOk(h[..FirstDot(h)]) && WellLabelled(h[FirstDot(h) + 1..]) {
      JoinedWellLabelled(h);
    }
  }

  lemma OneLabelDescribes(h: Host)
    requires FirstDot(h) == |h|
    ensures LabelsOk(Labels(h)) <==> WellLabelled(h)
    ensures SomeNonDigit(Labels(h)) <==> NotNumeric(h)
  {
    if WellLabelled(h) {
      OneLabelOk(h);
    }
    if LabelOk(h) {
      OneWellLabelled(h);
    }
    assert Labels(h)[0] == h;
    if NotNumeric(h) {
      var i :| 0 <= i < |h| && h[i] != DOT && !IsDigit(h[i]);
      assert NonDigitIn(Labels(h)[0]);
    }
  }

  lemma {:induction false} LabelsDescribe(h: Host)
    ensures LabelsOk(Labels(h)) <==> WellLabelled(h)
    ensures SomeNonDigit(Labels(h)) <==> NotNumeric(h)
    decreases |h|
  {
    var k := FirstDot(h);
    if k == |h| {
      OneLabelDescribes(h);
    } else {
      var l, r := h[..k], h[k + 1..];
      LabelsDescribe(r);
      assert Labels(h) == [l] + Labels(r);
      OneMoreOk(l, Labels(r));
      LabelledSplits(h);
      NumericSplits(h);
    }
  }

  lemma NumericSplits(h: Host)
    requires FirstDot(h) < |h|
    requires SomeNonDigit(Labels(h[FirstDot(h) + 1..])) <==> NotNumeric(h[FirstDot(h) + 1..])
    ensures SomeNonDigit(Labels(h)) <==> NotNumeric(h)
  {
    NonDigitLabels(h[..FirstDot(h)], Labels(h[FirstDot(h) + 1..]));
    if NotNumeric(h) {
      NotNumericSplits(h);
    }
    if NonDigitIn(h[..FirstDot(h)]) || NotNumeric(h[FirstDot(h) + 1..]) {
      NonDigitJoins(h);
    }
  }

  lemma NotNumericSplits(h: Host)
    requires FirstDot(h) < |h| && NotNumeric(h)
    ensures NonDigitIn(h[..FirstDot(h)]) || NotNumeric(h[FirstDot(h) + 1..])
  {
    var k := FirstDot(h);
    var i :| 0 <= i < |h| && h[i] != DOT && !IsDigit(h[i]);
    if i < k {
      assert h[..k][i] == h[i];
    } else {
      assert h[k + 1..][i - k - 1] == h[i];
    }
  }

  lemma NonDigitJoins(h: Host)
    requires FirstDot(h) < |h| && (NonDigitIn(h[..FirstDot(h)]) || NotNumeric(h[FirstDot(h) + 1..]))
    ensures NotNumeric(h)
  {
    var k := FirstDot(h);
    if NonDigitIn(h[..k]) {
      var j :| 0 <= j < k && !IsDigit(h[..k][j]);
      assert h[j] == h[..k][j] && h[j] != DOT;
    } else {
      var i :| 0 <= i < |h[k + 1..]| && h[k + 1..][i] != DOT && !IsDigit(h[k + 1..][i]);
      assert h[i + k + 1] == h[k + 1..][i];
    }
  }

  lemma NonDigitLabels(first: Host, rest: seq<Host>)
    ensures SomeNonDigit([first] + rest) <==> NonDigitIn(first) || SomeNonDigit(rest)
  {
    var all := [first] + rest;
    assert all[0] == first;
    if SomeNonDigit(rest) {
      var i :| 0 <= i < |rest| && NonDigitIn(rest[i]);
      assert all[i + 1] == rest[i];
    }
    if SomeNonDigit(all) {
      var i :| 0 <= i < |all| && NonDigitIn(all[i]);
      assert i > 0 ==> all[i] == rest[i - 1];
    }
  }

  // ----- The validators ------------------------------------------------------

  /** What is known of the Go library's address parser: it takes nothing but digits
      and dots, or something with a colon in it. */
  ghost predicate ParsesAddresses(parsesAsAddress: Host -> bool) {
    forall h :: parsesAsAddress(h) ==> COLON in h || !NotNumeric(h)
  }

  lemma NoColonInNames(h: Host)
    requires BytesOk(h)
    ensures COLON !in h
  {
  }

  /** The Core's check of the name in a domain frame. */
  method ValidStrictUdpDomain(host: Host, parsesAsAddress: Host -> bool) returns (valid: bool)
    requires ParsesAddresses(parsesAsAddress)
    ensures valid <==> ValidName(host)
  {
    LabelsDescribe(host);
    if host == [] || |host| > MAX_NAME {
      return false;
    }
    if parsesAsAddress(host) {
      if BytesOk(host) {
        NoColonInNames(host);
      }
      return false;
    }
    var numeric := true;
    var labels := Labels(host);
    for k := 0 to |labels|
      invariant LabelsOk(labels[..k])
      invariant numeric <==> !SomeNonDigit(labels[..k])
    {
      var part := labels[k];
      if |part| == 0 || |part| > MAX_LABEL || part[0] == HYPHEN || part[|part| - 1] == HYPHEN {
        assert !LabelOk(labels[k]);
        return false;
      }
      ghost var before := numeric;
      for index := 0 to |part|
        invariant forall i :: 0 <= i < index ==> IsNameByte(part[i])
        invariant numeric <==> before && forall i :: 0 <= i < index ==> IsDigit(part[i])
      {
        if !IsNameByte(part[index]) {
          assert !LabelOk(labels[k]);
          return false;
        }
        if part[index] < 48 || part[index] > 57 {
          numeric := false;
        }
      }
      OneMoreLabel(labels, k);
    }
    assert labels[..|labels|] == labels;
    valid := !numeric;
  }

  lemma OneMoreLabel(labels: seq<Host>, k: nat)
    requires k < |labels|
    ensures LabelsOk(labels[..k + 1]) <==> LabelsOk(labels[..k]) && LabelOk(labels[k])
    ensures SomeNonDigit(labels[..k + 1]) <==> SomeNonDigit(labels[..k]) || NonDigitIn(labels[k])
  {
    assert labels[..k + 1][k] == labels[k];
    if SomeNonDigit(labels[..k]) {
      var i :| 0 <= i < k && NonDigitIn(labels[..k][i]);
      assert labels[..k + 1][i] == labels[..k][i];
    }
    if SomeNonDigit(labels[..k + 1]) {
      var i :| 0 <= i < k + 1 && NonDigitIn(labels[..k + 1][i]);
      assert i < k ==> labels[..k][i] == labels[..k + 1][i];
    }
    if LabelsOk(labels[..k + 1]) {
      assert forall i :: 0 <= i < k ==> labels[..k][i] == labels[..k + 1][i];
    }
  }

  /** The Mac endpoint's check of a name it is about to send, lower-casing it. */
  method UdpDomain(host: Host) returns (name: Option<Host>)
    ensures name.Some? <==> ValidName(host)
    ensures name.Some? ==> name.value == Lower(host)
  {
    LabelsDescribe(host);
    if host == [] || |host| > MAX_NAME {
      return None;
    }
    var labels := Labels(host);
    var numeric := true;
    for k := 0 to |labels|
      invariant LabelsOk(labels[..k])
      invariant numeric <==> !SomeNonDigit(labels[..k])
    {
      var part := labels[k];
      if part == [] || |part| > MAX_LABEL || part[0] == HYPHEN || part[|part| - 1] == HYPHEN {
        assert !LabelOk(labels[k]);
        return None;
      }
      ghost var before := numeric;
      for index := 0 to |part|
        invariant forall i :: 0 <= i < index ==> IsNameByte(part[i])
        invariant numeric <==> before && forall i :: 0 <= i < index ==> IsDigit(part[i])
      {
        if !IsNameByte(part[index]) {
          assert !LabelOk(labels[k]);
          return None;
        }
        if !IsDigit(part[index]) {
          numeric := false;
        }
      }
      OneMoreLabel(labels, k);
    }
    assert labels[..|labels|] == labels;
    if numeric {
      return None;
    }
    name := Some(Lower(host));
  }
}
