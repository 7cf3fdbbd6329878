/** The error taxonomy of lib/dram_utils/error.rb: the error classes, the JSON
    envelope each one serialises to, and the two request guards `halt_with`
    and `required_param` that every API route uses. */
module Errors {
  import opened Common

  /** The HTTP status every error response carries. */
  const BadRequest: int := 400

  /** A Ruby exception captured by `rescue`: its class name (`err.class.to_s`)
      and its message (`err.to_s`). */
  datatype Exception = Exception(className: string, message: string)

  /** The error classes themselves, as `halt_with` may receive them. */
  datatype ErrorKind =
    | NotFoundError
    | MissingParamError
    | DnsLookupError
    | DnsWrongAFError
    | WhoisError
  {
    /** Whether `Kind.new` succeeds with no arguments: the initializers of
        MissingParamError and WhoisError each demand one. */
    predicate TakesNoArguments() {
      !MissingParamError? && !WhoisError?
    }
  }

  /** An error instance, with the state its constructor stores. */
  datatype ApiError =
    | NotFound
    | MissingParam(parName: string)
    | DnsLookup
    | DnsWrongAF
    | WhoisFailed(err: Exception)
  {
    function Kind(): ErrorKind {
      match this
      case NotFound => NotFoundError
      case MissingParam(_) => MissingParamError
      case DnsLookup => DnsLookupError
      case DnsWrongAF => DnsWrongAFError
      case WhoisFailed(_) => WhoisError
    }

    /** Whether the `to_json` of this error is part of the model: the class
        DnsWrongAFError is referenced by the DNS route but not defined here. */
    predicate Serialisable() {
      !DnsWrongAF?
    }
  }

  /** The `error` member of an envelope (`type` is a Dafny keyword, hence
      `errorType`). */
  datatype ErrorBody = ErrorBody(errorType: string, msg: string, details: map<string, string>)

  /** `{status: "error", error: {type, msg, details}}`. */
  datatype ErrorEnvelope = ErrorEnvelope(status: string, error: ErrorBody)

  /** The outcome of a route body: it either runs to its value or is cut
      short by Sinatra's `halt [status, body]`, whose body is the envelope of
      `error`. Failure-compatible, so `:-` plays the part of `halt`. */
  datatype Handled<+T> = Ok(value: T) | Halted(status: int, error: ApiError) {
    predicate IsFailure() {
      Halted?
    }

    function PropagateFailure<U>(): Handled<U>
      requires Halted?
    {
      Halted(status, error)
    }

    function Extract(): T
      requires Ok?
    {
      value
    }
  }

  /** What `halt_with` accepts: an error class or an error instance. */
  datatype ErrorArg = ClassArg(kind: ErrorKind) | InstanceArg(instance: ApiError)

  /** `Kind.new` with no arguments. */
  function New(k: ErrorKind): (e: ApiError)
    requires k.TakesNoArguments()
    ensures e.Kind() == k
    ensures !e.MissingParam? && !e.WhoisFailed?
  {
    match k
    case NotFoundError => NotFound
    case DnsLookupError => DnsLookup
    case DnsWrongAFError => DnsWrongAF
  }

  /** Maps an envelope's `type` string back to the error kind that emits it;
      the kinds' type strings are pairwise distinct, so this is a function. */
  function TypeKind(t: string): Option<ErrorKind> {
    if t == "not_found" then Some(NotFoundError)
    else if t == "missing_parameter" then Some(MissingParamError)
    else if t == "dns_lookup_error" then Some(DnsLookupError)
    else if t == "whois_error" then Some(WhoisError)
    else None
  }

  /** `err.to_json` of each error class. */
  function Envelope(e: ApiError): (r: ErrorEnvelope)
    requires e.Serialisable()
    ensures r.status == "error"
    ensures TypeKind(r.error.errorType) == Some(e.Kind())
    ensures e.NotFound? ==> r.error.msg == "No such API. " && r.error.details == map[]
    ensures e.DnsLookup? ==> r.error.msg == "DNS lookup failed" && r.error.details == map[]
    ensures e.MissingParam? ==>
      Contains(r.error.msg, e.parName) && r.error.details == map["name" := e.parName]
    ensures e.WhoisFailed? ==>
      r.error.msg == "Whois failed" &&
      r.error.details == map["error_class" := e.err.className, "error_msg" := e.err.message]
  {
    match e
    case NotFound =>
      ErrorEnvelope("error", ErrorBody("not_found", "No such API. ", map[]))
    case MissingParam(name) =>
      SplicedPart("Required parameter ", name, " missing. ");
      ErrorEnvelope("error", ErrorBody("missing_parameter", "Required parameter " + name + " missing. ",
                                       map["name" := name]))
    case DnsLookup =>
      ErrorEnvelope("error", ErrorBody("dns_lookup_error", "DNS lookup failed", map[]))
    case WhoisFailed(err) =>
      ErrorEnvelope("error", ErrorBody("whois_error", "Whois failed",
                                       map["error_class" := err.className, "error_msg" := err.message]))
  }

  /** A caller can branch on `error.type` alone: two serialisable errors share
      a type string exactly when they are of the same kind. */
  lemma TypeIdentifiesKind(a: ApiError, b: ApiError)
    requires a.Serialisable() && b.Serialisable()
    ensures Envelope(a).error.errorType == Envelope(b).error.errorType <==> a.Kind() == b.Kind()
  {
  }

  /** `halt_with(err)`: a class is first instantiated with no arguments, then
      the request stops with status 400 and the error's envelope. */
  function HaltWith<T>(arg: ErrorArg): (r: Handled<T>)
    requires arg.ClassArg? ==> arg.kind.TakesNoArguments()
    ensures r.Halted? && r.status == BadRequest
    ensures arg.InstanceArg? ==> r.error == arg.instance
    ensures arg.ClassArg? ==> r.error == New(arg.kind)
  {
    var err := if arg.ClassArg? then New(arg.kind) else arg.instance;
    Halted(BadRequest, err)
  }

  /** `required_param(par)`: any value present under `par` (the empty string
      included) is returned; an absent one stops the request with a
      MissingParamError naming `par`. */
  function RequiredParam(params: map<string, string>, par: string): (r: Handled<string>)
    ensures r.Ok? <==> par in params
    ensures r.Ok? ==> r.value == params[par]
    ensures r.Halted? ==> r.status == BadRequest && r.error == MissingParam(par)
  {
    if par in params then Ok(params[par])
    else HaltWith(InstanceArg(MissingParam(par)))
  }
}
