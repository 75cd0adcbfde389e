/**
 * Workspace paths (workspaceStore.ts, validateWorkspacePath): the accepted
 * strings and the lists of names they stand for are the same thing.
 */
module WorkspacePath {
  import opened Splitting
  import opened Wrappers

  type Path = seq<string>

  const MAX_PATH_BYTES: nat := 1024
  const MAX_SEGMENT_BYTES: nat := 255
  const MAX_PATH_DEPTH: nat := 64
  const WRITE_PREFIX: string := ".typr-companion-write-"

  /** The length of a string in UTF-8. */
  function ByteLength(s: string): nat {
    if s == [] then 0
    else (if s[0] < '\U{80}' then 1 else if s[0] < '\U{800}' then 2 else if s[0] < '\U{10000}' then 3 else 4) + ByteLength(s[1..])
  }

  predicate StartsWith(s: string, prefix: string) {
    |prefix| <= |s| && s[..|prefix|] == prefix
  }

  predicate IsControl(c: char) {
    c <= '\U{1f}' || c == '\U{7f}'
  }

  predicate GoodSegment(s: string) {
    && |s| > 0 && s != "." && s != ".." && s != ".git" && !StartsWith(s, WRITE_PREFIX)
    && ByteLength(s) <= MAX_SEGMENT_BYTES && !(exists c | c in s :: IsControl(c))
  }

  /** `segments.join("/")`. */
  function Join(p: Path): string {
    JoinOn(p, '/')
  }

  datatype PathError = NotRelative | TooLong | ProhibitedSegment

  function ValidateWorkspacePath(value: string): Result<Path, PathError> {
    if value == [] || '\\' in value || '\0' in value || value[0] == '/' then Failure(NotRelative)
    else if ByteLength(value) > MAX_PATH_BYTES then Failure(TooLong)
    else
      var segments := SplitOn(value, '/');
      if |segments| > MAX_PATH_DEPTH || exists i | 0 <= i < |segments| :: !GoodSegment(segments[i]) then Failure(ProhibitedSegment)
      else Success(segments)
  }

  /** A name the validator lets through at any place of a path. */
  predicate GoodName(s: string) {
    GoodSegment(s) && '/' !in s && '\\' !in s
  }

  predicate ValidPath(p: Path): (valid: bool)
    ensures valid ==> p != []
  {
    && 1 <= |p| <= MAX_PATH_DEPTH
    && ByteLength(Join(p)) <= MAX_PATH_BYTES
    && forall i | 0 <= i < |p| :: GoodName(p[i])
  }

  /**
   * The accepted strings are exactly the joins of valid paths, and each
   * stands for that one path: two accepted strings never name the same place.
   */
  lemma AcceptedIffValid(value: string, p: Path)
    ensures ValidateWorkspacePath(value) == Success(p) <==> ValidPath(p) && Join(p) == value
  {
    JoinOfSplit(value, '/');
    if ValidateWorkspacePath(value) == Success(p) {
      forall i | 0 <= i < |p| ensures '\\' !in p[i] {
        if '\\' in p[i] { JoinMembers(p, '/', '\\'); }
      }
    }
    if ValidPath(p) && Join(p) == value {
      SplitOfJoin(p, '/');
      JoinMembers(p, '/', '\\');
      JoinMembers(p, '/', '\0');
      forall i | 0 <= i < |p| ensures '\0' !in p[i] {
        assert IsControl('\0');
      }
      FirstOfJoin(p);
    }
  }

  lemma FirstOfJoin(p: Path)
    requires p != [] && |p[0]| > 0
    ensures |Join(p)| > 0 && Join(p)[0] == p[0][0]
  {
  }

  lemma {:induction false} ByteLengthConcat(a: string, b: string)
    ensures ByteLength(a + b) == ByteLength(a) + ByteLength(b)
  {
    if a == [] {
      assert a + b == b;
    } else {
      assert (a + b)[1..] == a[1..] + b;
      ByteLengthConcat(a[1..], b);
    }
  }

  lemma {:induction false} JoinPrefixShorter(p: Path, k: nat)
    requires 1 <= k <= |p|
    ensures ByteLength(Join(p[..k])) <= ByteLength(Join(p))
  {
    if k < |p| {
      if k == 1 {
        ByteLengthConcat(p[0] + "/", Join(p[1..]));
        ByteLengthConcat(p[0], "/");
      } else {
        JoinPrefixShorter(p[1..], k - 1);
        assert p[..k][1..] == p[1..][..k - 1];
        ByteLengthConcat(p[0] + "/", Join(p[1..]));
        ByteLengthConcat(p[0] + "/", Join(p[1..][..k - 1]));
      }
    } else {
      assert p[..k] == p;
    }
  }

  /** Every directory on the way to a valid path has a valid path itself. */
  lemma PrefixOfValidPath(p: Path, k: nat)
    requires ValidPath(p) && 1 <= k <= |p|
    ensures ValidPath(p[..k])
  {
    JoinPrefixShorter(p, k);
  }
}
