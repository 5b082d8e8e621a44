/**
 * The part of the Zod schema library that the poll application's schemas use:
 * `.min(n)` and `.max(n)` bounds on the length of a string or an array, and the
 * issues a failed bound reports. A schema check collects every issue it finds
 * and succeeds only when it found none.
 */
module Zod {

  /** One step of the path from the parsed value to the field an issue is about. */
  datatype PathElem = Key(name: string) | Index(pos: nat)

  /** What was measured: the length of a string or of an array. */
  datatype ValueKind = StringValue | ArrayValue

  /** `too_small` and `too_big`, with the bound that was broken. */
  datatype IssueCode = TooSmall(kind: ValueKind, minimum: nat) | TooBig(kind: ValueKind, maximum: nat)

  datatype Issue = Issue(path: seq<PathElem>, code: IssueCode)

  /** The outcome of `safeParse`: the parsed data, or the issues found. */
  datatype ParseResult<+T> = Success(value: T) | Failure(issues: seq<Issue>)

  /**
   * The issues of `.min(min).max(max)` on a value of length `len` found at `path`:
   * the minimum is checked first, the maximum second.
   */
  function LengthIssues(kind: ValueKind, len: nat, min: nat, max: nat, path: seq<PathElem>): (r: seq<Issue>)
    ensures r == [] <==> min <= len <= max
    ensures forall k :: 0 <= k < |r| ==> r[k].path == path
    ensures forall k :: 0 <= k < |r| ==>
      (r[k].code == TooSmall(kind, min) && len < min) || (r[k].code == TooBig(kind, max) && max < len)
  {
    (if len < min then [Issue(path, TooSmall(kind, min))] else [])
    + (if max < len then [Issue(path, TooBig(kind, max))] else [])
  }

}
