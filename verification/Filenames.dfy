/** Download filenames: printed by internal/service/helpers.go, parsed back by
    internal/api/http.go, with the few functions of `strings` and `strconv` they use. */
module Filenames {
  import opened Core

  // ---------- fmt's %d and strconv.Atoi on 64-bit integers ----------

  const MAX_INT: int := 0x7fff_ffff_ffff_ffff

  predicate InIntRange(n: int) {
    -MAX_INT - 1 <= n <= MAX_INT
  }

  predicate IsDigit(c: char) {
    '0' <= c <= '9'
  }

  predicate AllDigits(s: string) {
    forall i | 0 <= i < |s| :: IsDigit(s[i])
  }

  function Digits(n: nat): (s: string)
    ensures |s| > 0 && AllDigits(s)
  {
    var last := '0' + (n % 10) as char;
    if n < 10 then [last] else Digits(n / 10) + [last]
  }

  function Itoa(n: int): string {
    if n < 0 then "-" + Digits(-n) else Digits(n)
  }

  function Magnitude(s: string): nat
    requires AllDigits(s)
  {
    if s == "" then 0
    else 10 * Magnitude(s[..|s| - 1]) + (s[|s| - 1] as int - '0' as int)
  }

  function Atoi(s: string): Option<int> {
    var signed := |s| > 0 && (s[0] == '-' || s[0] == '+');
    var digits := if signed then s[1..] else s;
    if digits == "" || !AllDigits(digits) then None
    else
      var m: int := Magnitude(digits);
      var n := if s[0] == '-' then -m else m;
      if InIntRange(n) then Some(n) else None
  }

  lemma {:induction false} MagnitudeOfDigits(n: nat)
    ensures Magnitude(Digits(n)) == n
  {
    if n >= 10 {
      MagnitudeOfDigits(n / 10);
      assert Digits(n)[..|Digits(n)| - 1] == Digits(n / 10);
    }
  }

  lemma DigitsHaveNoMarks(n: nat)
    ensures '_' !in Digits(n) && '.' !in Digits(n) && Digits(n)[0] != '-' && Digits(n)[0] != '+'
  {
    assert IsDigit(Digits(n)[0]);
  }

  lemma ItoaHasNoMarks(n: int)
    ensures '_' !in Itoa(n) && '.' !in Itoa(n)
  {
    DigitsHaveNoMarks(if n < 0 then -n else n);
  }

  lemma AtoiItoa(n: int)
    ensures Atoi(Itoa(n)) == if InIntRange(n) then Some(n) else None
  {
    var m := if n < 0 then -n else n;
    MagnitudeOfDigits(m);
    DigitsHaveNoMarks(m);
    if n < 0 {
      assert Itoa(n)[1..] == Digits(m);
    }
  }

  // ---------- strings.Index, LastIndex, Split, TrimPrefix, TrimSuffix ----------

  /** First index of `c`, or the length. */
  function Index(s: string, c: char): (i: nat)
    ensures i <= |s|
    ensures forall j | 0 <= j < i :: s[j] != c
    ensures i < |s| ==> s[i] == c
  {
    if s == "" || s[0] == c then 0 else 1 + Index(s[1..], c)
  }

  /** Last index of `c`, or -1. */
  function LastIndex(s: string, c: char): (i: int)
    ensures -1 <= i < |s|
    ensures forall j | i < j < |s| :: s[j] != c
    ensures i >= 0 ==> s[i] == c
  {
    if s == "" then -1
    else if s[|s| - 1] == c then |s| - 1
    else LastIndex(s[..|s| - 1], c)
  }

  function Split(s: string, c: char): (parts: seq<string>)
    ensures |parts| >= 1
    ensures |parts| == 1 <==> c !in s
  {
    var i := Index(s, c);
    assert s[..|s|] == s;
    if i == |s| then [s] else [s[..i]] + Split(s[i + 1..], c)
  }

  function TrimPrefix(s: string, prefix: string): string {
    if prefix <= s then s[|prefix|..] else s
  }

  function TrimSuffix(s: string, suffix: string): string {
    if |suffix| <= |s| && s[|s| - |suffix|..] == suffix then s[..|s| - |suffix|] else s
  }

  lemma NotIn(s: string, c: char, i: nat, j: nat)
    requires i <= j <= |s| && c !in s[i..j]
    ensures forall k | i <= k < j :: s[k] != c
  {
    forall k | i <= k < j ensures s[k] != c {
      assert s[i..j][k - i] == s[k];
    }
  }

  lemma IndexUnique(s: string, c: char, i: nat)
    requires i < |s| && s[i] == c && c !in s[..i]
    ensures Index(s, c) == i
  {
    NotIn(s, c, 0, i);
  }

  lemma LastIndexUnique(s: string, c: char, i: nat)
    requires i < |s| && s[i] == c && c !in s[i + 1..]
    ensures LastIndex(s, c) == i
  {
    NotIn(s, c, i + 1, |s|);
  }

  lemma {:induction false} SplitAt(a: string, c: char, b: string)
    ensures Split(a + [c] + b, c) == Split(a, c) + Split(b, c)
    decreases |a|
  {
    var s := a + [c] + b;
    var i := Index(a, c);
    assert a[..|a|] == a;
    assert s[..i] == a[..i];
    IndexUnique(s, c, i);
    if i == |a| {
      assert s[i + 1..] == b;
    } else {
      assert s[i + 1..] == a[i + 1..] + [c] + b;
      SplitAt(a[i + 1..], c, b);
    }
  }

  // ---------- printing ----------

  function CharmFilename(packageId: string, revision: int): string {
    packageId + "_" + Itoa(revision) + ".charm"
  }

  function ResourceFilename(packageId: string, resource: string, revision: int): string {
    "charm_" + packageId + "." + resource + "_" + Itoa(revision)
  }

  function CharmDownloadURL(api: string, packageId: string, revision: int): string {
    api + "/api/v1/charms/download/" + CharmFilename(packageId, revision)
  }

  function ResourceDownloadURL(api: string, packageId: string, resource: string, revision: int): string {
    api + "/api/v1/resources/download/" + ResourceFilename(packageId, resource, revision)
  }

  // ---------- parsing ----------

  function ParseCharmFilename(filename: string): Option<(string, int)> {
    var parts := Split(TrimSuffix(filename, ".charm"), '_');
    if |parts| != 2 || Atoi(parts[1]).None? then None
    else Some((parts[0], Atoi(parts[1]).value))
  }

  function ParseResourceFilename(filename: string): Option<(string, string, int)> {
    var trimmed := TrimPrefix(filename, "charm_");
    var dot := Index(trimmed, '.');
    if dot == |trimmed| then None
    else
      var part := trimmed[dot + 1..];
      var underscore := LastIndex(part, '_');
      if underscore < 0 || Atoi(part[underscore + 1..]).None? then None
      else Some((trimmed[..dot], part[..underscore], Atoi(part[underscore + 1..]).value))
  }

  // ---------- round trips ----------

  /** Exactly the package ids without an underscore and the revisions in int range survive. */
  lemma CharmRoundTrip(packageId: string, n: int)
    ensures ParseCharmFilename(CharmFilename(packageId, n)) == Some((packageId, n))
            <==> '_' !in packageId && InIntRange(n)
  {
    var filename := CharmFilename(packageId, n);
    AtoiItoa(n);
    ItoaHasNoMarks(n);
    assert filename[|filename| - 6..] == ".charm";
    assert TrimSuffix(filename, ".charm") == packageId + ['_'] + Itoa(n);
    SplitAt(packageId, '_', Itoa(n));
    assert Split(Itoa(n), '_') == [Itoa(n)];
    if '_' !in packageId {
      assert Split(packageId, '_') == [packageId];
    }
  }

  lemma Regroup(a: string, b: string, c: string)
    ensures (a + b) + c == a + (b + c)
  {}

  lemma TrimmedFilename(packageId: string, resource: string, n: int)
    ensures TrimPrefix(ResourceFilename(packageId, resource, n), "charm_")
            == packageId + "." + (resource + "_" + Itoa(n))
  {
    var head, d := packageId + ".", Itoa(n);
    Regroup("charm_", packageId, ".");
    Regroup("charm_" + head, resource, "_");
    Regroup("charm_" + head, resource + "_", d);
    Regroup("charm_", head, resource + "_" + d);
    var trimmed := head + (resource + "_" + d);
    assert ("charm_" + trimmed)[6..] == trimmed && ("charm_" + trimmed)[..6] == "charm_";
  }

  /** `name + "_" + number` falls apart at its last underscore. */
  lemma ParseTail(resource: string, n: int)
    ensures var part := resource + "_" + Itoa(n);
      LastIndex(part, '_') == |resource| && part[..|resource|] == resource && part[|resource| + 1..] == Itoa(n)
  {
    var part := resource + "_" + Itoa(n);
    ItoaHasNoMarks(n);
    assert part[|resource| + 1..] == Itoa(n);
    LastIndexUnique(part, '_', |resource|);
  }

  /** `id + "." + tail` falls apart at the first dot of `id`, or else right after `id`. */
  lemma ParseHead(packageId: string, tail: string)
    ensures var trimmed := packageId + "." + tail;
      Index(trimmed, '.') == Index(packageId, '.') < |trimmed|
      && ('.' !in packageId ==> trimmed[..|packageId|] == packageId && trimmed[|packageId| + 1..] == tail)
  {
    var trimmed := packageId + "." + tail;
    var i := Index(packageId, '.');
    assert trimmed[..i] == packageId[..i];
    IndexUnique(trimmed, '.', i);
  }

  /** Exactly the package ids without a dot and the revisions in int range survive, whatever
      dots and underscores the resource name holds. */
  lemma ResourceRoundTrip(packageId: string, resource: string, n: int)
    ensures ParseResourceFilename(ResourceFilename(packageId, resource, n)) == Some((packageId, resource, n))
            <==> '.' !in packageId && InIntRange(n)
  {
    var tail := resource + "_" + Itoa(n);
    var trimmed := packageId + "." + tail;
    TrimmedFilename(packageId, resource, n);
    ParseHead(packageId, tail);
    AtoiItoa(n);
    if '.' !in packageId {
      ParseTail(resource, n);
    } else {
      DotInside(packageId);
      assert |trimmed[..Index(packageId, '.')]| < |packageId|;
    }
  }

  lemma DotInside(packageId: string)
    requires '.' in packageId
    ensures Index(packageId, '.') < |packageId|
  {
    assert packageId[..|packageId|] == packageId;
  }

  /** Two artefacts that may be told apart get different filenames. */
  lemma ResourceFilenamesInjective(p: string, a: string, m: int, q: string, b: string, n: int)
    requires '.' !in p && '.' !in q && InIntRange(m) && InIntRange(n)
    requires ResourceFilename(p, a, m) == ResourceFilename(q, b, n)
    ensures p == q && a == b && m == n
  {
    ResourceRoundTrip(p, a, m);
    ResourceRoundTrip(q, b, n);
  }

  lemma CharmFilenamesInjective(p: string, m: int, q: string, n: int)
    requires '_' !in p && '_' !in q && InIntRange(m) && InIntRange(n)
    requires CharmFilename(p, m) == CharmFilename(q, n)
    ensures p == q && m == n
  {
    CharmRoundTrip(p, m);
    CharmRoundTrip(q, n);
  }

  // ---------- links ----------

  /** The link to a charm revision: its filename is parsed back into that revision. */
  predicate CharmLink(url: string, api: string, packageId: string, n: int) {
    var filename := packageId + "_" + Itoa(n) + ".charm";
    && url == api + "/api/v1/charms/download/" + filename
    && ('_' !in packageId && InIntRange(n) ==> ParseCharmFilename(filename) == Some((packageId, n)))
  }

  /** The link to a resource revision, likewise. */
  predicate ResourceLink(url: string, api: string, packageId: string, resource: string, n: int) {
    var filename := "charm_" + packageId + "." + resource + "_" + Itoa(n);
    && url == api + "/api/v1/resources/download/" + filename
    && ('.' !in packageId && InIntRange(n) ==> ParseResourceFilename(filename) == Some((packageId, resource, n)))
  }

  lemma DownloadsLeadBack(api: string, packageId: string, resource: string, n: int)
    ensures CharmLink(CharmDownloadURL(api, packageId, n), api, packageId, n)
    ensures ResourceLink(ResourceDownloadURL(api, packageId, resource, n), api, packageId, resource, n)
  {
    CharmRoundTrip(packageId, n);
    ResourceRoundTrip(packageId, resource, n);
  }
}
