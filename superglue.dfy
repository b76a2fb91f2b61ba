/**
 * Selection of the matched keypoint pairs in `SuperGlue.match`: the
 * boolean mask `matches > -1` picks the image keypoints and their
 * confidences, and the surviving match indices pick the map keypoints.
 * Also the match counts written into the plot's caption.
 */
module SuperGlue {
  /** A keypoint's pixel coordinates `(x, y)`. */
  type Keypoint = (real, real)

  /** `mkp_img`, `mkp_map` and `mconf`. */
  datatype MatchedPairs = MatchedPairs(mkpImg: seq<Keypoint>, mkpMap: seq<Keypoint>, mconf: seq<real>)

  /** `valid = matches > -1`. */
  function ValidMask(matches: seq<int>): (valid: seq<bool>)
    ensures |valid| == |matches|
    ensures forall i :: 0 <= i < |matches| ==> (valid[i] <==> matches[i] > -1)
  {
    seq(|matches|, i requires 0 <= i < |matches| => matches[i] > -1)
  }

  /** Boolean-mask indexing `xs[mask]`: the entries whose mask bit is set, in order. */
  function Select<T>(xs: seq<T>, mask: seq<bool>): (r: seq<T>)
    requires |xs| == |mask|
    ensures |r| <= |xs|
  {
    if |xs| == 0 then []
    else
      var n := |xs| - 1;
      Select(xs[..n], mask[..n]) + (if mask[n] then [xs[n]] else [])
  }

  /** Integer-array indexing `xs[idx]`. */
  function Gather<T>(xs: seq<T>, idx: seq<int>): (r: seq<T>)
    requires forall k :: 0 <= k < |idx| ==> 0 <= idx[k] < |xs|
    ensures |r| == |idx| && forall k :: 0 <= k < |idx| ==> r[k] == xs[idx[k]]
  {
    seq(|idx|, k requires 0 <= k < |idx| => xs[idx[k]])
  }

  /**
   * The positions of the image keypoints that found a match: exactly the
   * `i` with `matches[i] > -1`, in increasing order.
   */
  function MatchedIndices(matches: seq<int>): (idx: seq<nat>)
    ensures |idx| <= |matches|
    ensures forall k :: 0 <= k < |idx| ==> idx[k] < |matches| && matches[idx[k]] > -1
    ensures forall k, l :: 0 <= k < l < |idx| ==> idx[k] < idx[l]
    ensures forall i :: 0 <= i < |matches| ==> (i in idx <==> matches[i] > -1)
  {
    if |matches| == 0 then []
    else
      var n := |matches| - 1;
      var rest := MatchedIndices(matches[..n]);
      if matches[n] > -1 then rest + [n] else rest
  }

  /** Selecting by the mask is gathering at the matched indices. */
  lemma {:induction false} SelectIsGather<T>(xs: seq<T>, matches: seq<int>)
    requires |xs| == |matches|
    ensures Select(xs, ValidMask(matches)) == Gather(xs, MatchedIndices(matches))
    decreases |xs|
  {
    if |xs| > 0 {
      var n := |xs| - 1;
      var mask := ValidMask(matches);
      var rest := MatchedIndices(matches[..n]);
      assert mask[..n] == ValidMask(matches[..n]);
      SelectIsGather(xs[..n], matches[..n]);
      GatherPrefix(xs, n, rest);
      if mask[n] {
        GatherAppend(xs, rest, n);
      }
    }
  }

  lemma GatherPrefix<T>(xs: seq<T>, n: nat, idx: seq<nat>)
    requires n <= |xs| && forall k :: 0 <= k < |idx| ==> idx[k] < n
    ensures Gather(xs[..n], idx) == Gather(xs, idx)
  {
  }

  lemma GatherAppend<T>(xs: seq<T>, idx: seq<nat>, i: nat)
    requires i < |xs| && forall k :: 0 <= k < |idx| ==> idx[k] < |xs|
    ensures Gather(xs, idx + [i]) == Gather(xs, idx) + [xs[i]]
  {
  }

  /**
   * The three outputs of the match filtering (lines 65-68). Numpy needs
   * the mask as long as the arrays it indexes, and every surviving match
   * index inside the map keypoints.
   */
  function MatchKeypoints(kpImg: seq<Keypoint>, kpMap: seq<Keypoint>, matches: seq<int>, conf: seq<real>)
    : (r: MatchedPairs)
    requires |matches| == |kpImg| == |conf|
    requires forall i :: 0 <= i < |matches| && matches[i] > -1 ==> matches[i] < |kpMap|
    ensures |r.mkpImg| == |r.mkpMap| == |r.mconf| == |MatchedIndices(matches)| <= |kpImg|
    ensures forall k :: 0 <= k < |r.mkpImg| ==>
              var i := MatchedIndices(matches)[k];
              r.mkpImg[k] == kpImg[i] && r.mkpMap[k] == kpMap[matches[i]] && r.mconf[k] == conf[i]
  {
    var valid := ValidMask(matches);
    SelectIsGather(kpImg, matches);
    SelectIsGather(matches, matches);
    SelectIsGather(conf, matches);
    MatchedPairs(Select(kpImg, valid), Gather(kpMap, Select(matches, valid)), Select(conf, valid))
  }

  /** When nothing matched, all three outputs are empty. */
  lemma {:induction false} NoMatchesGiveEmptyOutputs(kpImg: seq<Keypoint>, kpMap: seq<Keypoint>, matches: seq<int>, conf: seq<real>)
    requires |matches| == |kpImg| == |conf|
    requires forall i :: 0 <= i < |matches| ==> matches[i] == -1
    ensures MatchKeypoints(kpImg, kpMap, matches, conf) == MatchedPairs([], [], [])
  {
    NoMatchedIndices(matches);
  }

  lemma {:induction false} NoMatchedIndices(matches: seq<int>)
    requires forall i :: 0 <= i < |matches| ==> matches[i] == -1
    ensures MatchedIndices(matches) == []
    decreases |matches|
  {
    if |matches| > 0 {
      NoMatchedIndices(matches[..|matches| - 1]);
    }
  }

  /** The indices `0, 1, ..., n - 1`. */
  function Range(n: nat): (r: seq<nat>)
    ensures |r| == n && forall i :: 0 <= i < n ==> r[i] == i
  {
    if n == 0 then [] else Range(n - 1) + [n - 1]
  }

  /** Every index is matched exactly when no entry is `-1` or below. */
  lemma {:induction false} AllMatchedIndices(matches: seq<int>)
    requires forall i :: 0 <= i < |matches| ==> matches[i] > -1
    ensures MatchedIndices(matches) == Range(|matches|)
    decreases |matches|
  {
    if |matches| > 0 {
      var n := |matches| - 1;
      AllMatchedIndices(matches[..n]);
    }
  }

  /** When every keypoint matched, `mkp_img` is `kp_img` and `mconf` is `conf`. */
  lemma {:induction false} AllMatchedKeepsEverything(kpImg: seq<Keypoint>, kpMap: seq<Keypoint>, matches: seq<int>, conf: seq<real>)
    requires |matches| == |kpImg| == |conf|
    requires forall i :: 0 <= i < |matches| ==> -1 < matches[i] < |kpMap|
    ensures MatchKeypoints(kpImg, kpMap, matches, conf).mkpImg == kpImg
    ensures MatchKeypoints(kpImg, kpMap, matches, conf).mconf == conf
  {
    AllMatchedIndices(matches);
  }

  /** The decimal digit for `d`. */
  function DigitChar(d: nat): (c: char)
    requires d < 10
    ensures '0' <= c <= '9' && c as int - '0' as int == d
  {
    ('0' as int + d) as char
  }

  /** `str(n)` for a length: decimal digits, most significant first. */
  function NatToString(n: nat): (s: string)
    ensures |s| > 0 && forall i :: 0 <= i < |s| ==> '0' <= s[i] <= '9'
  {
    if n < 10 then [DigitChar(n)] else NatToString(n / 10) + [DigitChar(n % 10)]
  }

  /** The value of a string of decimal digits. */
  function ParseNat(s: string): nat
    requires forall i :: 0 <= i < |s| ==> '0' <= s[i] <= '9'
  {
    if |s| == 0 then 0 else ParseNat(s[..|s| - 1]) * 10 + (s[|s| - 1] as int - '0' as int)
  }

  /** Reading the printed number back gives the number. */
  lemma {:induction false} ParseNatToString(n: nat)
    ensures ParseNat(NatToString(n)) == n
  {
    if n >= 10 {
      var s := NatToString(n);
      assert s[..|s| - 1] == NatToString(n / 10);
      ParseNatToString(n / 10);
    }
  }

  /** The caption lines `SuperGlue`, `Keypoints: {}:{}` and `Matches: {}`. */
  function CaptionText(kpImg: seq<Keypoint>, kpMap: seq<Keypoint>, r: MatchedPairs): (text: seq<string>)
    ensures |text| == 3 && text[0] == "SuperGlue"
  {
    ["SuperGlue",
     "Keypoints: " + NatToString(|kpImg|) + ":" + NatToString(|kpMap|),
     "Matches: " + NatToString(|r.mkpImg|)]
  }

  /** The caption reports the number of image keypoints that found a match. */
  lemma MatchesCaptionShowsCount(kpImg: seq<Keypoint>, kpMap: seq<Keypoint>, matches: seq<int>, conf: seq<real>)
    requires |matches| == |kpImg| == |conf|
    requires forall i :: 0 <= i < |matches| && matches[i] > -1 ==> matches[i] < |kpMap|
    ensures var line := CaptionText(kpImg, kpMap, MatchKeypoints(kpImg, kpMap, matches, conf))[2];
            line[..9] == "Matches: "
            && ParseNat(line[9..]) == |MatchedIndices(matches)|
  {
    var r := MatchKeypoints(kpImg, kpMap, matches, conf);
    var line := CaptionText(kpImg, kpMap, r)[2];
    assert line[9..] == NatToString(|r.mkpImg|);
    ParseNatToString(|r.mkpImg|);
  }

  /**
   * The keypoints caption has one colon after the `Keypoints: ` prefix, and the digits on
   * either side read back as the numbers of image and map keypoints.
   */
  lemma KeypointsCaptionShowsCounts(kpImg: seq<Keypoint>, kpMap: seq<Keypoint>, r: MatchedPairs)
    ensures var line := CaptionText(kpImg, kpMap, r)[1];
            var c := 11 + |NatToString(|kpImg|)|;
            && c < |line| && line[..11] == "Keypoints: " && line[c] == ':'
            && (forall j :: 11 <= j < |line| && j != c ==> '0' <= line[j] <= '9')
            && ParseNat(line[11..c]) == |kpImg| && ParseNat(line[c + 1..]) == |kpMap|
  {
    var a, b := NatToString(|kpImg|), NatToString(|kpMap|);
    var line := CaptionText(kpImg, kpMap, r)[1];
    ParseNatToString(|kpImg|);
    ParseNatToString(|kpMap|);
    CaptionSplits("Keypoints: ", a, b);
  }

  /** The line `prefix + a + ":" + b` splits back into `a` and `b` at the colon. */
  lemma CaptionSplits(prefix: string, a: string, b: string)
    requires (forall j :: 0 <= j < |a| ==> '0' <= a[j] <= '9') && (forall j :: 0 <= j < |b| ==> '0' <= b[j] <= '9')
    ensures var line := prefix + a + ":" + b;
            var c := |prefix| + |a|;
            && c < |line| && line[..|prefix|] == prefix && line[c] == ':'
            && (forall j :: |prefix| <= j < |line| && j != c ==> '0' <= line[j] <= '9')
            && line[|prefix|..c] == a && line[c + 1..] == b
  {
    var line := prefix + a + ":" + b;
    var c := |prefix| + |a|;
    forall j | |prefix| <= j < |line| && j != c ensures '0' <= line[j] <= '9' {
      if j < c {
        assert line[j] == a[j - |prefix|];
      } else {
        assert line[j] == b[j - c - 1];
      }
    }
    assert line[|prefix|..c] == a;
    assert line[c + 1..] == b;
  }
}
