/** The part of Mongoose's schema-path validation that the two models rely on. A path's
    validators run in order (`required` first) and the path reports only the first that fails;
    a document saves only when no path reports an error. */
module Mongoose {
  import opened Wrappers

  /** A reference to another document (`Schema.Types.ObjectId`). */
  datatype ObjectId = ObjectId(hex: string)

  /** The built-in and plugin validators the models declare. */
  datatype Kind = Required | MinLength(min: nat) | Unique

  /** The error a failing validator reports for its path. */
  datatype ValidatorError = ValidatorError(path: string, kind: Kind)

  /** `required` on a `String` path: present and not the empty string. */
  predicate RequiredString(v: Option<string>) {
    v.Some? && v.value != ""
  }

  /** The first failing validator of a required `String` path with a `minlength`. */
  function RequiredMinLength(path: string, v: Option<string>, min: nat): (r: Option<ValidatorError>)
    requires min > 0
    ensures r.None? <==> v.Some? && |v.value| >= min
    ensures r.Some? ==> r.value.path == path
    ensures r.Some? ==> (r.value.kind == Required <==> !RequiredString(v))
    ensures r.Some? ==> (r.value.kind == MinLength(min) <==> RequiredString(v))
  {
    if !RequiredString(v) then Some(ValidatorError(path, Required))
    else if |v.value| < min then Some(ValidatorError(path, MinLength(min)))
    else None
  }

  /** The errors of the paths that failed, in path order. */
  function Errors(reports: seq<Option<ValidatorError>>): (errs: seq<ValidatorError>)
    ensures |errs| <= |reports|
    ensures errs == [] <==> forall i :: 0 <= i < |reports| ==> reports[i].None?
    ensures forall e :: e in errs <==> Some(e) in reports
  {
    if reports == [] then []
    else
      assert reports == [reports[0]] + reports[1..];
      (if reports[0].Some? then [reports[0].value] else []) + Errors(reports[1..])
  }
}
