/** The choice of the PyTorch package index for a detected CUDA version: the list of candidate
    indexes the installer probes (`cu{major}{minor}` tags, newest first, down to CUDA 11.8), the
    probing loop with its cu118 fallback, and the fixed table used when probing is not possible.
    Detecting the CUDA version (`nvidia-smi`) and the HTTP probe of an index are left out: the
    version is an input, and the probe is the set of index URLs that answer. */
module CudaIndex {
  import opened Wrappers
  import opened Text

  /** A CUDA version as `detectCudaVersion` reports it, and a CUDA build a PyTorch index is for. */
  datatype CudaVersion = CudaVersion(major: nat, minor: nat)

  const IndexBase: string := "https://download.pytorch.org/whl/"
  const FallbackUrl: string := "https://download.pytorch.org/whl/cu118"

  /** `cu${m}${n}`. */
  function Tag(c: CudaVersion): string
  {
    "cu" + NatToString(c.major) + NatToString(c.minor)
  }

  function IndexUrl(c: CudaVersion): (url: string)
    ensures StartsWith(url, IndexBase) && url[|IndexBase|..] == Tag(c)
  {
    IndexBase + Tag(c)
  }

  /** `a` is an older CUDA version than `b`. */
  predicate Older(a: CudaVersion, b: CudaVersion)
  {
    a.major < b.major || (a.major == b.major && a.minor < b.minor)
  }

  // ---------------------------------------------------------------- the candidate list

  /** The first minor version tried for major `m`: the detected minor for the detected major, 9 below it. */
  function StartMinor(v: CudaVersion, m: nat): nat
  {
    if m == v.major then v.minor else 9
  }

  /** The last minor version tried for major `m`: 8 for CUDA 11 (11.8 is the oldest supported), 0 otherwise. */
  function EndMinor(m: nat): nat
  {
    if m == 11 then 8 else 0
  }

  /** The versions `m.from`, `m.(from-1)`, ..., `m.to` (none when `from < to`). */
  function Row(m: nat, from: int, to: nat): seq<CudaVersion>
    decreases from - to
  {
    if from < to then [] else [CudaVersion(m, from)] + Row(m, from - 1, to)
  }

  /** The rows for majors `m`, `m-1`, ..., 11. */
  function Rows(v: CudaVersion, m: int): seq<CudaVersion>
    decreases m
  {
    if m < 11 then [] else Row(m, StartMinor(v, m), EndMinor(m)) + Rows(v, m - 1)
  }

  /** The versions `generateCudaIndexCandidates` lists for a detected version, in order. */
  function Candidates(v: CudaVersion): seq<CudaVersion>
  {
    Rows(v, v.major)
  }

  /** The index URL of each version, in order. */
  function Urls(cs: seq<CudaVersion>): seq<string>
  {
    if |cs| == 0 then [] else [IndexUrl(cs[0])] + Urls(cs[1..])
  }

  lemma {:induction false} UrlsConcat(a: seq<CudaVersion>, b: seq<CudaVersion>)
    ensures Urls(a + b) == Urls(a) + Urls(b)
  {
    if |a| == 0 {
      assert a + b == b;
    } else {
      assert (a + b)[1..] == a[1..] + b;
      UrlsConcat(a[1..], b);
    }
  }

  /** The candidate index URLs: for each major from the detected one down to 11, each minor from
      `StartMinor` down to `EndMinor`. */
  method GenerateCudaIndexCandidates(v: CudaVersion) returns (candidates: seq<string>)
    ensures candidates == Urls(Candidates(v))
  {
    candidates := [];
    var m: int := v.major;
    while m >= 11
      invariant m <= v.major
      invariant candidates + Urls(Rows(v, m)) == Urls(Candidates(v))
      decreases m
    {
      var row := Urls(Row(m, StartMinor(v, m), EndMinor(m)));
      ghost var rest := Urls(Rows(v, m - 1));
      assert Urls(Rows(v, m)) == row + rest by {
        UrlsConcat(Row(m, StartMinor(v, m), EndMinor(m)), Rows(v, m - 1));
      }
      ConcatAssoc(candidates, row, rest);
      candidates := PushRow(candidates, m, StartMinor(v, m), EndMinor(m));
      m := m - 1;
    }
    assert Rows(v, m) == [];
    assert candidates + [] == candidates;
  }

  /** The inner loop: pushes the URLs of `m.from` down to `m.to`. */
  method PushRow(start: seq<string>, m: nat, from: int, to: nat) returns (candidates: seq<string>)
    ensures candidates == start + Urls(Row(m, from, to))
  {
    candidates := start;
    var n := from;
    while n >= to
      invariant candidates + Urls(Row(m, n, to)) == start + Urls(Row(m, from, to))
      decreases n
    {
      var url := IndexUrl(CudaVersion(m, n));
      ghost var row := Urls(Row(m, n - 1, to));
      assert Urls(Row(m, n, to)) == [url] + row;
      ConcatShift(candidates, url, row);
      candidates := candidates + [url];
      n := n - 1;
    }
    assert Row(m, n, to) == [];
    assert candidates + [] == candidates;
  }

  lemma ConcatAssoc(a: seq<string>, b: seq<string>, c: seq<string>)
    ensures a + (b + c) == a + b + c
  {
  }

  lemma ConcatShift(a: seq<string>, x: string, b: seq<string>)
    ensures a + ([x] + b) == (a + [x]) + b
  {
  }

  // ---------------------------------------------------------------- what the list holds

  /** The versions between 11.8 and the detected version, with minors up to 9 below the detected major. */
  predicate InRange(v: CudaVersion, c: CudaVersion)
  {
    11 <= c.major <= v.major &&
    (c.major == v.major ==> c.minor <= v.minor) &&
    (c.major < v.major ==> c.minor <= 9) &&
    (c.major == 11 ==> 8 <= c.minor)
  }

  lemma {:induction false} RowMember(m: nat, from: int, to: nat, c: CudaVersion)
    ensures c in Row(m, from, to) <==> c.major == m && to <= c.minor <= from
    decreases from - to
  {
    if from >= to {
      RowMember(m, from - 1, to, c);
    }
  }

  lemma {:induction false} RowsMember(v: CudaVersion, m: int, c: CudaVersion)
    requires m <= v.major
    ensures c in Rows(v, m) <==> 11 <= c.major <= m && EndMinor(c.major) <= c.minor <= StartMinor(v, c.major)
    decreases m
  {
    if m >= 11 {
      RowMember(m, StartMinor(v, m), EndMinor(m), c);
      RowsMember(v, m - 1, c);
    }
  }

  /** A version is a candidate exactly when it lies between 11.8 and the detected version (minors
      above 9 only for the detected major). */
  lemma CandidatesMember(v: CudaVersion, c: CudaVersion)
    ensures c in Candidates(v) <==> InRange(v, c)
  {
    RowsMember(v, v.major, c);
  }

  /** Every later element is strictly older than every earlier one. */
  predicate Descending(cs: seq<CudaVersion>)
  {
    forall i, j :: 0 <= i < j < |cs| ==> Older(cs[j], cs[i])
  }

  lemma DescendingConcat(a: seq<CudaVersion>, b: seq<CudaVersion>)
    requires Descending(a) && Descending(b)
    requires forall x, y :: x in a && y in b ==> Older(y, x)
    ensures Descending(a + b)
  {
    forall i, j | 0 <= i < j < |a + b|
      ensures Older((a + b)[j], (a + b)[i])
    {
      if j < |a| {
        assert (a + b)[j] == a[j] && (a + b)[i] == a[i];
      } else if i < |a| {
        assert (a + b)[i] == a[i] && (a + b)[j] == b[j - |a|];
      } else {
        assert (a + b)[i] == b[i - |a|] && (a + b)[j] == b[j - |a|];
      }
    }
  }

  lemma {:induction false} RowDescending(m: nat, from: int, to: nat)
    ensures Descending(Row(m, from, to))
    decreases from - to
  {
    if from >= to {
      RowDescending(m, from - 1, to);
      forall y | y in Row(m, from - 1, to)
        ensures Older(y, CudaVersion(m, from))
      {
        RowMember(m, from - 1, to, y);
      }
      DescendingConcat([CudaVersion(m, from)], Row(m, from - 1, to));
    }
  }

  lemma {:induction false} RowsDescending(v: CudaVersion, m: int)
    requires m <= v.major
    ensures Descending(Rows(v, m))
    decreases m
  {
    if m >= 11 {
      var row := Row(m, StartMinor(v, m), EndMinor(m));
      RowDescending(m, StartMinor(v, m), EndMinor(m));
      RowsDescending(v, m - 1);
      forall x, y | x in row && y in Rows(v, m - 1)
        ensures Older(y, x)
      {
        RowMember(m, StartMinor(v, m), EndMinor(m), x);
        RowsMember(v, m - 1, y);
      }
      DescendingConcat(row, Rows(v, m - 1));
    }
  }

  /** The candidates are listed newest first, without repetition. */
  lemma CandidatesDescending(v: CudaVersion)
    ensures Descending(Candidates(v))
  {
    RowsDescending(v, v.major);
  }

  /** There is no candidate for a version below 11.8; otherwise the list starts at the detected
      version itself and ends at 11.8. */
  lemma CandidatesEnds(v: CudaVersion)
    ensures Candidates(v) == [] <==> v.major < 11 || (v.major == 11 && v.minor < 8)
    ensures Candidates(v) != [] ==> Candidates(v)[0] == v && Candidates(v)[|Candidates(v)| - 1] == CudaVersion(11, 8)
  {
    var cs := Candidates(v);
    CandidatesDescending(v);
    if v.major < 11 {
      assert cs == [];
    } else if v.major == 11 && v.minor < 8 {
      assert cs == Row(11, v.minor, 8) + Rows(v, 10);
    } else {
      CandidatesMember(v, v);
      CandidatesMember(v, CudaVersion(11, 8));
      CandidatesMember(v, cs[0]);
      CandidatesMember(v, cs[|cs| - 1]);
      var k :| 0 <= k < |cs| && cs[k] == v;
      var l :| 0 <= l < |cs| && cs[l] == CudaVersion(11, 8);
      assert k == 0;
      assert l == |cs| - 1;
    }
  }

  // ---------------------------------------------------------------- probing the candidates

  /** The first URL of the list that answers. */
  function FirstAvailable(urls: seq<string>, available: set<string>): (r: Option<string>)
    ensures r.Some? ==> r.value in urls && r.value in available
    ensures r.None? <==> forall i :: 0 <= i < |urls| ==> urls[i] !in available
  {
    if |urls| == 0 then None
    else if urls[0] in available then Some(urls[0])
    else FirstAvailable(urls[1..], available)
  }

  /** What `getPytorchCudaIndexUrlAsync` settles on: nothing without a detected version, the first
      candidate that answers, or cu118 when none does. */
  function ChosenIndexUrl(v: Option<CudaVersion>, available: set<string>): Option<string>
  {
    if v.None? then None
    else
      match FirstAvailable(Urls(Candidates(v.value)), available)
      case Some(url) => Some(url)
      case None => Some(FallbackUrl)
  }

  /** Probes the candidates in order and returns the first that answers, cu118 otherwise. */
  method PytorchCudaIndexUrlAsync(v: Option<CudaVersion>, available: set<string>) returns (url: Option<string>)
    ensures url == ChosenIndexUrl(v, available)
  {
    if v.None? {
      return None;
    }
    var candidates := GenerateCudaIndexCandidates(v.value);
    var i := 0;
    while i < |candidates|
      invariant 0 <= i <= |candidates|
      invariant FirstAvailable(candidates, available) == FirstAvailable(candidates[i..], available)
    {
      if candidates[i] in available {
        return Some(candidates[i]);
      }
      assert candidates[i..][1..] == candidates[i + 1..];
      i := i + 1;
    }
    return Some(FallbackUrl);
  }

  /** On a newest-first list, the probe finds the newest version whose index answers. */
  lemma {:induction false} FirstAvailableNewest(cs: seq<CudaVersion>, available: set<string>, c: CudaVersion)
    requires Descending(cs) && c in cs && IndexUrl(c) in available
    requires forall d :: d in cs && Older(c, d) ==> IndexUrl(d) !in available
    ensures FirstAvailable(Urls(cs), available) == Some(IndexUrl(c))
  {
    if cs[0] != c {
      assert Older(c, cs[0]) by {
        var k :| 0 <= k < |cs| && cs[k] == c;
      }
      assert Urls(cs)[1..] == Urls(cs[1..]);
      FirstAvailableNewest(cs[1..], available, c);
    }
  }

  // ---------------------------------------------------------------- the fixed table

  /** `getPytorchCudaIndexUrl`: the index of the newest build known to exist that the detected
      version can run. */
  function PytorchIndexUrl(v: Option<CudaVersion>): Option<string>
  {
    if v.None? then None
    else
      var major, minor := v.value.major, v.value.minor;
      if major >= 13 then Some("https://download.pytorch.org/whl/cu130")
      else if major == 12 && minor >= 8 then Some("https://download.pytorch.org/whl/cu128")
      else if major == 12 && minor >= 6 then Some("https://download.pytorch.org/whl/cu126")
      else if major == 12 && minor >= 4 then Some("https://download.pytorch.org/whl/cu124")
      else if major == 12 && minor >= 1 then Some("https://download.pytorch.org/whl/cu121")
      else if major == 11 && minor >= 8 then Some("https://download.pytorch.org/whl/cu118")
      else Some("https://download.pytorch.org/whl/cu118")
  }

  /** The builds the fixed table knows. */
  const KnownBuilds: set<CudaVersion> :=
    {CudaVersion(13, 0), CudaVersion(12, 8), CudaVersion(12, 6), CudaVersion(12, 4), CudaVersion(12, 1), CudaVersion(11, 8)}

  /** The newest known build a detected version can run (11.8 when none can). */
  function TableBuild(v: CudaVersion): (c: CudaVersion)
    ensures c in KnownBuilds
  {
    if v.major >= 13 then CudaVersion(13, 0)
    else if v.major == 12 && v.minor >= 8 then CudaVersion(12, 8)
    else if v.major == 12 && v.minor >= 6 then CudaVersion(12, 6)
    else if v.major == 12 && v.minor >= 4 then CudaVersion(12, 4)
    else if v.major == 12 && v.minor >= 1 then CudaVersion(12, 1)
    else CudaVersion(11, 8)
  }

  lemma NatToStringLength(n: nat)
    ensures n < 10 <==> |NatToString(n)| == 1
    ensures 10 <= n < 100 <==> |NatToString(n)| == 2
  {
    if n >= 100 {
      assert |NatToString(n / 10)| >= 2;
    }
  }

  /** A two-digit major and a one-digit minor are read back from a tag: no other version with a
      major of at least 10 has the same index URL. */
  lemma IndexUrlInjective(c: CudaVersion, k: CudaVersion)
    requires c.major >= 10 && 10 <= k.major < 100 && k.minor < 10
    ensures IndexUrl(c) == IndexUrl(k) <==> c == k
  {
    if IndexUrl(c) == IndexUrl(k) {
      var a, b := NatToString(c.major), NatToString(c.minor);
      var a', b' := NatToString(k.major), NatToString(k.minor);
      assert Tag(c) == Tag(k);
      assert a + b == a' + b' by {
        assert Tag(c)[2..] == a + b;
        assert Tag(k)[2..] == a' + b';
      }
      NatToStringLength(c.major);
      NatToStringLength(c.minor);
      NatToStringLength(k.major);
      NatToStringLength(k.minor);
      assert |a| == 2 && |b| == 1;
      assert a == (a + b)[..2] == (a' + b')[..2] == a';
      assert b == (a + b)[2..] == (a' + b')[2..] == b';
      NatToStringValue(c.major);
      NatToStringValue(k.major);
      NatToStringValue(c.minor);
      NatToStringValue(k.minor);
    }
  }

  /** The table's URLs are the index URLs of the known builds. */
  lemma KnownUrls()
    ensures IndexUrl(CudaVersion(13, 0)) == "https://download.pytorch.org/whl/cu130"
    ensures IndexUrl(CudaVersion(12, 8)) == "https://download.pytorch.org/whl/cu128"
    ensures IndexUrl(CudaVersion(12, 6)) == "https://download.pytorch.org/whl/cu126"
    ensures IndexUrl(CudaVersion(12, 4)) == "https://download.pytorch.org/whl/cu124"
    ensures IndexUrl(CudaVersion(12, 1)) == "https://download.pytorch.org/whl/cu121"
    ensures IndexUrl(CudaVersion(11, 8)) == "https://download.pytorch.org/whl/cu118"
  {
    assert NatToString(13) == "13" && NatToString(12) == "12" && NatToString(11) == "11";
    assert NatToString(0) == "0" && NatToString(8) == "8" && NatToString(6) == "6";
    assert NatToString(4) == "4" && NatToString(1) == "1";
  }

  /** The index URLs of the known builds. */
  function KnownIndexUrls(): set<string>
  {
    set c | c in KnownBuilds :: IndexUrl(c)
  }

  /** A candidate's index is one of the known ones exactly when it is a known build. */
  lemma KnownIndexUrl(c: CudaVersion)
    requires c.major >= 10
    ensures IndexUrl(c) in KnownIndexUrls() <==> c in KnownBuilds
  {
    if IndexUrl(c) in KnownIndexUrls() {
      var k :| k in KnownBuilds && IndexUrl(k) == IndexUrl(c);
      IndexUrlInjective(c, k);
    }
  }

  /** The fixed table is the probing loop run against an installer that publishes exactly the
      known builds: for every detected version, both pick the same index. */
  lemma TableMatchesProbe(v: Option<CudaVersion>)
    ensures PytorchIndexUrl(v) == ChosenIndexUrl(v, KnownIndexUrls())
  {
    if v.Some? {
      var w := v.value;
      KnownUrls();
      assert PytorchIndexUrl(v) == Some(IndexUrl(TableBuild(w)));
      if InRange(w, TableBuild(w)) {
        ProbeFindsTableBuild(w);
      } else {
        ProbeFindsNothing(w);
      }
    }
  }

  lemma ProbeFindsTableBuild(w: CudaVersion)
    requires InRange(w, TableBuild(w))
    ensures FirstAvailable(Urls(Candidates(w)), KnownIndexUrls()) == Some(IndexUrl(TableBuild(w)))
  {
    var cs := Candidates(w);
    var best := TableBuild(w);
    CandidatesDescending(w);
    CandidatesMember(w, best);
    forall d | d in cs && Older(best, d)
      ensures IndexUrl(d) !in KnownIndexUrls()
    {
      CandidatesMember(w, d);
      KnownIndexUrl(d);
    }
    FirstAvailableNewest(cs, KnownIndexUrls(), best);
  }

  lemma ProbeFindsNothing(w: CudaVersion)
    requires !InRange(w, TableBuild(w))
    ensures TableBuild(w) == CudaVersion(11, 8)
    ensures FirstAvailable(Urls(Candidates(w)), KnownIndexUrls()) == None
  {
    CandidatesEnds(w);
  }
}
