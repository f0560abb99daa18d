/**
 * The snapshot policy of `OperateLogMixin.method_conf`: for each HTTP action,
 * whether the instance is serialized before the view runs and after it.
 */
module Policy {

  datatype SnapshotPolicy = SnapshotPolicy(needsBefore: bool, needsAfter: bool)

  /** ASCII lower-casing of one character. */
  function LowerChar(c: char): char {
    if 'A' <= c <= 'Z' then (c as int + 32) as char else c
  }

  /** `str.lower()` on an HTTP method name (ASCII letters only). */
  function Lower(s: string): string {
    if s == [] then [] else [LowerChar(s[0])] + Lower(s[1..])
  }

  /** Lower-casing keeps the length and maps every character on its own. */
  lemma {:induction false} LowerPointwise(s: string)
    ensures |Lower(s)| == |s|
    ensures forall i :: 0 <= i < |s| ==> Lower(s)[i] == LowerChar(s[i])
  {
    if s != [] {
      LowerPointwise(s[1..]);
    }
  }

  /** The table itself: action to (before, after). */
  const MethodConf: map<string, SnapshotPolicy> := map[
    "get"    := SnapshotPolicy(false, false),
    "post"   := SnapshotPolicy(false, true),
    "put"    := SnapshotPolicy(true, true),
    "patch"  := SnapshotPolicy(true, true),
    "delete" := SnapshotPolicy(true, false)
  ]

  /** `method_conf().get(request.method.lower(), (False, False))`. */
  function PolicyFor(verb: string): SnapshotPolicy {
    var action := Lower(verb);
    if action in MethodConf then MethodConf[action] else SnapshotPolicy(false, false)
  }

  /**
   * An instance is read before the view for put, patch and delete, and after
   * it for post, put and patch, whatever the case of the method name; every
   * other action reads nothing.
   */
  lemma PolicyForContract(verb: string)
    ensures PolicyFor(verb).needsBefore <==> Lower(verb) in {"put", "patch", "delete"}
    ensures PolicyFor(verb).needsAfter <==> Lower(verb) in {"post", "put", "patch"}
  {
  }

  /** Lower-casing twice is lower-casing once. */
  lemma {:induction false} LowerIdempotent(s: string)
    ensures Lower(Lower(s)) == Lower(s)
  {
    if s != [] {
      LowerIdempotent(s[1..]);
      assert Lower(Lower(s)) == [LowerChar(LowerChar(s[0]))] + Lower(Lower(s[1..]));
    }
  }

  /** The policy of a method name is the policy of its lower-cased form. */
  lemma PolicyIgnoresCase(verb: string)
    ensures PolicyFor(Lower(verb)) == PolicyFor(verb)
  {
    LowerIdempotent(verb);
  }

  /** Lower-casing an upper-case ASCII word, one character at a time. */
  lemma LowerUpperWord(upper: string, lower: string)
    requires |upper| == |lower|
    requires forall i :: 0 <= i < |upper| ==> 'A' <= upper[i] <= 'Z' && lower[i] == (upper[i] as int + 32) as char
    ensures Lower(upper) == lower
  {
    LowerPointwise(upper);
  }

  /**
   * A method name sent in upper case ("DELETE") selects the same row of the
   * table as its lower-case form ("delete").
   */
  lemma UpperCaseSelectsSameRow(upper: string, lower: string)
    requires |upper| == |lower|
    requires forall i :: 0 <= i < |upper| ==> 'A' <= upper[i] <= 'Z' && lower[i] == (upper[i] as int + 32) as char
    ensures PolicyFor(upper) == PolicyFor(lower)
  {
    LowerUpperWord(upper, lower);
    LowerPointwise(lower);
    assert Lower(lower) == lower;
  }
}
