/**
 * The string-building parts of File_Sync's `FileManager`: the name given to a conflicting
 * copy, the placeholder content hash, and the temporary and parent paths an atomic write uses.
 * The clock reading, `std::hash` and the file system stay outside: the timestamp text, the hash
 * function and the bytes read are inputs.
 */
module FileManaging {
  import opened Wrappers
  import opened Text

  // ---------------------------------------------------------------------------
  // Paths
  // ---------------------------------------------------------------------------

  /** The characters `find_last_of("/\\")` looks for. */
  const Separators: set<char> := {'/', '\\'}

  /** No separator at or after position `from`. */
  predicate NoSeparatorFrom(path: string, from: nat) {
    forall j :: from <= j < |path| ==> path[j] !in Separators
  }

  /** The position of the last '.' when it lies in the final path component. */
  function ExtensionDot(path: string): (r: Option<nat>)
    ensures r.Some? ==> r.value < |path| && path[r.value] == '.' && NoSeparatorFrom(path, r.value)
    ensures r.Some? ==> forall j :: r.value < j < |path| ==> path[j] != '.'
  {
    match LastIndexOf(path, {'.'})
    case None => None
    case Some(d) =>
      match LastIndexOf(path, Separators)
      case None => Some(d)
      case Some(s) => if d > s then Some(d) else None
  }

  /** `has_extension`: the last '.' exists and comes after the last separator, if there is one. */
  predicate HasExtension(path: string) {
    ExtensionDot(path).Some?
  }

  /** A path has an extension exactly when some '.' has no separator after it. */
  lemma ExtensionMeaning(path: string)
    ensures HasExtension(path) <==> exists i :: 0 <= i < |path| && path[i] == '.' && NoSeparatorFrom(path, i)
  {
    if i :| 0 <= i < |path| && path[i] == '.' && NoSeparatorFrom(path, i) {
      var d := LastIndexOf(path, {'.'});
      assert d.Some? && d.value >= i;
      var s := LastIndexOf(path, Separators);
      if s.Some? {
        assert s.value < i;
      }
    }
  }

  /** `file_path + ".tmp_filesync"`: where an atomic write puts the bytes before the rename. */
  function TempPath(path: string): string {
    path + ".tmp_filesync"
  }

  /** The temporary file never is the target, and different targets get different temporary files. */
  lemma TempPathDistinct(path: string, other: string)
    ensures TempPath(path) != path
    ensures TempPath(path) == TempPath(other) ==> path == other
  {
    if TempPath(path) == TempPath(other) {
      assert |path| == |other|;
      assert path == TempPath(path)[..|path|];
    }
  }

  /** The directory an atomic write makes sure of: the text before the last separator, if any. */
  function ParentDir(path: string): Option<string> {
    match LastIndexOf(path, Separators)
    case None => None
    case Some(i) => Some(path[..i])
  }

  /** The parent is the path cut at a separator that no other separator follows. */
  lemma ParentDirShape(path: string)
    ensures ParentDir(path).None? <==> NoSeparatorFrom(path, 0)
    ensures ParentDir(path).Some? ==>
      var d := ParentDir(path).value;
      |d| < |path| && d == path[..|d|] && path[|d|] in Separators && NoSeparatorFrom(path, |d| + 1)
  {
  }

  // ---------------------------------------------------------------------------
  // Conflict names
  // ---------------------------------------------------------------------------

  /** The text inserted into the name: who the other copy came from, and when. */
  function ConflictTag(host: string, timestamp: string): string {
    " (" + CopyFrom + host + " " + timestamp + ")"
  }

  const CopyFrom: string := "conflicted copy from "

  /**
   * `generate_conflict_filename`, with `timestamp` the local time as `%Y-%m-%d %H-%M-%S`
   * writes it: the tag goes just before the extension, or at the end when there is none.
   */
  function ConflictFilename(path: string, host: string, timestamp: string): string {
    match ExtensionDot(path)
    case Some(d) => path[..d] + ConflictTag(host, timestamp) + path[d..]
    case None => path + ConflictTag(host, timestamp)
  }

  /** The tag splits the path at one point and the original text is kept on both sides. */
  lemma ConflictFilenameShape(path: string, host: string, timestamp: string)
    ensures var k := if HasExtension(path) then ExtensionDot(path).value else |path|;
      ConflictFilename(path, host, timestamp) == path[..k] + ConflictTag(host, timestamp) + path[k..]
  {
    if !HasExtension(path) {
      assert path[..|path|] == path && path[|path|..] == [];
    }
  }

  /** With an extension the result ends with that same extension. */
  lemma ConflictKeepsExtension(path: string, host: string, timestamp: string)
    requires HasExtension(path)
    ensures var r, ext := ConflictFilename(path, host, timestamp), path[ExtensionDot(path).value..];
      |ext| <= |r| && r[|r| - |ext|..] == ext && ext[0] == '.'
  {
  }

  /** Without an extension the original path is kept whole at the front. */
  lemma ConflictWithoutExtension(path: string, host: string, timestamp: string)
    requires !HasExtension(path)
    ensures var r := ConflictFilename(path, host, timestamp);
      |path| < |r| && r[..|path|] == path && r[|r| - 1] == ')'
  {
  }

  /** The result names the peer: "conflicted copy from <host>" occurs in it. */
  lemma ConflictNamesHost(path: string, host: string, timestamp: string)
    ensures exists k :: OccursAt(ConflictFilename(path, host, timestamp), CopyFrom + host, k)
  {
    var k := if HasExtension(path) then ExtensionDot(path).value else |path|;
    var named, tag := CopyFrom + host, ConflictTag(host, timestamp);
    ConflictFilenameShape(path, host, timestamp);
    assert tag == " (" + named + (" " + timestamp + ")");
    OccursBetween(" (", named, " " + timestamp + ")");
    OccursInside(path[..k], tag, path[k..], named, 2);
  }

  /** `b` occurs in `a + b + c` right after `a`. */
  lemma OccursBetween(a: string, b: string, c: string)
    ensures OccursAt(a + b + c, b, |a|)
  {
    assert (a + b + c)[|a|..|a| + |b|] == b;
  }

  /** What occurs in the middle part of a concatenation occurs in the whole, shifted by the first part. */
  lemma OccursInside(a: string, x: string, b: string, pat: string, j: nat)
    requires OccursAt(x, pat, j)
    ensures OccursAt(a + x + b, pat, |a| + j)
  {
    assert (a + x + b)[|a| + j..|a| + j + |pat|] == x[j..j + |pat|];
  }

  /** For one path and one moment, different peers give different names. */
  lemma ConflictHostsDiffer(path: string, host: string, other: string, timestamp: string)
    requires host != other
    ensures ConflictFilename(path, host, timestamp) != ConflictFilename(path, other, timestamp)
  {
    var k := if HasExtension(path) then ExtensionDot(path).value else |path|;
    ConflictFilenameShape(path, host, timestamp);
    ConflictFilenameShape(path, other, timestamp);
    var t1, t2 := ConflictTag(host, timestamp), ConflictTag(other, timestamp);
    if |host| == |other| {
      var i :| 0 <= i < |host| && host[i] != other[i];
      TagHoldsHost(host, timestamp, i);
      TagHoldsHost(other, timestamp, i);
      IndexMiddle(path[..k], t1, path[k..], 2 + |CopyFrom| + i);
      IndexMiddle(path[..k], t2, path[k..], 2 + |CopyFrom| + i);
    } else {
      TagHoldsHost(host, timestamp, 0);
      TagHoldsHost(other, timestamp, 0);
    }
  }

  /** The tag is the host's length plus a fixed amount long, and holds the host after " (conflicted copy from ". */
  lemma TagHoldsHost(host: string, timestamp: string, i: nat)
    ensures |ConflictTag(host, timestamp)| == |host| + |timestamp| + |CopyFrom| + 4
    ensures i < |host| ==> ConflictTag(host, timestamp)[2 + |CopyFrom| + i] == host[i]
  {
  }

  /** Indexing into the middle part of a concatenation. */
  lemma IndexMiddle(a: string, x: string, b: string, j: nat)
    requires j < |x|
    ensures (a + x + b)[|a| + j] == x[j]
  {
  }

  // ---------------------------------------------------------------------------
  // The placeholder hash
  // ---------------------------------------------------------------------------

  /** `s` with '0's prepended until it is `width` long; a longer `s` is unchanged. */
  function Padded(s: string, width: nat): (r: string)
    ensures |r| == if |s| < width then width else |s|
  {
    if |s| < width then Zeros(width - |s|) + s else s
  }

  /** What `calculate_sha256` returns for the value `std::hash` gave the content. */
  function HashString(digest: nat): string {
    Padded(Hex(digest), 16) + "_placeholder_hash"
  }

  function Pow16(k: nat): nat {
    if k == 0 then 1 else 16 * Pow16(k - 1)
  }

  /** A number below 16^k has at most k hexadecimal digits. */
  lemma {:induction false} HexWidth(n: nat, k: nat)
    requires 1 <= k && n < Pow16(k)
    ensures |Hex(n)| <= k
    decreases k
  {
    if n >= 16 {
      assert k > 1;
      HexWidth(n / 16, k - 1);
    }
  }

  lemma {:induction false} Pow16Add(a: nat, b: nat)
    ensures Pow16(a + b) == Pow16(a) * Pow16(b)
    decreases a
  {
    if a > 0 {
      Pow16Add(a - 1, b);
    }
  }

  /** `size_t` is 64 bits wide: sixteen hexadecimal digits. */
  lemma Pow16Sixteen()
    ensures Pow16(16) == ULongModulus
  {
    assert Pow16(2) == 256;
    Pow16Add(2, 2);
    Pow16Add(4, 4);
    Pow16Add(8, 8);
  }

  /** A `size_t` digest always fills exactly 16 characters ahead of the suffix. */
  lemma HashStringLength(digest: nat)
    requires digest < ULongModulus
    ensures |HashString(digest)| == 16 + |"_placeholder_hash"|
  {
    Pow16Sixteen();
    HexWidth(digest, 16);
  }

  /** The hexadecimal part reads back as the digest, so different digests give different strings. */
  lemma HashStringInjective(digest: nat, other: nat)
    requires HashString(digest) == HashString(other)
    ensures digest == other
  {
    var suffix := "_placeholder_hash";
    var p, q := Padded(Hex(digest), 16), Padded(Hex(other), 16);
    assert |p| == |q|;
    assert p == HashString(digest)[..|p|];
    assert q == HashString(other)[..|q|];
    PaddedValue(digest);
    PaddedValue(other);
  }

  /** The leading zeros of the padding do not change the value. */
  lemma PaddedValue(n: nat)
    ensures var p := Padded(Hex(n), 16);
      (forall i :: 0 <= i < |p| ==> IsHexDigit(p[i])) && HexValue(p) == n
  {
    var h := Hex(n);
    HexRoundTrip(n);
    if |h| < 16 {
      HexLeadingZeros(16 - |h|, h);
    }
  }

  /** The `std::hex` digits of the content's hash, padded, and the suffix. */
  method CalculateSha256(content: seq<bv8>, hasher: seq<bv8> -> nat) returns (result: string)
    requires hasher(content) < ULongModulus
    ensures result == HashString(hasher(content))
  {
    var hex := Hex(hasher(content));
    result := PadToSixteen(hex);
    result := result + "_placeholder_hash";
  }

  /** The `while (result.length() < 16) result = "0" + result;` loop. */
  method PadToSixteen(hex: string) returns (result: string)
    ensures result == Padded(hex, 16)
  {
    result := hex;
    while |result| < 16
      invariant |hex| <= |result| <= (if |hex| < 16 then 16 else |hex|)
      invariant result == Zeros(|result| - |hex|) + hex
      decreases 16 - |result|
    {
      ghost var k := |result| - |hex|;
      assert ['0'] + Zeros(k) == Zeros(k + 1);
      result := "0" + result;
    }
  }

  /** `calculate_file_sha256`: the empty string when the file cannot be read. */
  method CalculateFileSha256(file: Option<seq<bv8>>, hasher: seq<bv8> -> nat) returns (result: string)
    requires file.Some? ==> hasher(file.value) < ULongModulus
    ensures file.None? ==> result == []
    ensures file.Some? ==> result == HashString(hasher(file.value)) && result != []
  {
    if file.None? {
      return [];
    }
    result := CalculateSha256(file.value, hasher);
  }
}
