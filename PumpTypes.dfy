/** Value types shared by both driver versions: the rotor direction enum and
    the error family the driver raises. */
module PumpTypes {

  datatype Option<T> = None | Some(value: T)

  /** Rotor rotation direction, as viewed from the front. */
  datatype PumpDirection = CW | CCW

  /** The value each enum member carries ("cw" / "ccw"). */
  function DirectionValue(d: PumpDirection): string {
    match d
    case CW => "cw"
    case CCW => "ccw"
  }

  /** `PumpDirection(v)` applied to a literal: the member carrying that value,
      or nothing (the enum constructor raises ValueError). */
  function DirectionFromValue(v: string): (r: Option<PumpDirection>)
    ensures r.Some? <==> exists d :: DirectionValue(d) == v
    ensures r.Some? ==> DirectionValue(r.value) == v
  {
    if v == "cw" then assert DirectionValue(CW) == v; Some(CW)
    else if v == "ccw" then assert DirectionValue(CCW) == v; Some(CCW)
    else assert DirectionValue(CW) != v && DirectionValue(CCW) != v; None
  }

  /** The two members carry distinct values, so a literal names at most one direction. */
  lemma DirectionValueInjective(d: PumpDirection, e: PumpDirection)
    ensures DirectionValue(d) == DirectionValue(e) ==> d == e
  {
  }

  /** `PumpDirection.opposite`. */
  function Opposite(d: PumpDirection): (r: PumpDirection)
    ensures r != d
  {
    if d == CCW then CW else CCW
  }

  lemma OppositeInvolution(d: PumpDirection)
    ensures Opposite(Opposite(d)) == d
  {
  }

  /** What a caller may pass where the driver expects a direction: a member of
      the enum or one of its literal values. */
  datatype DirectionArg = Member(d: PumpDirection) | Literal(text: string)

  /** What caused an InvalidResponse. */
  datatype ResponseProblem =
    | UnexpectedAck
    | FieldCount(expected: nat, got: nat)
    | FieldConversion(index: nat)

  /** Everything the driver raises. InvalidChannel and InvalidDirection stand for
      Python's ValueError; the others for the RegloIccPumpError family. */
  datatype PumpError =
    | CommandTimeout
    | InvalidResponse(problem: ResponseProblem)
    | RemoteError
    | InvalidTubingId(hundredths: int)
    | DeviceNotFound
    | SerialNoMismatch(expected: string, reported: string)
    | StallDetectionDetected(channel: int)
    | InvalidChannel(channel: int)
    | InvalidDirection(value: string)

  /** Membership in the RegloIccPumpError class family. */
  predicate IsRegloIccPumpError(e: PumpError) {
    !e.InvalidChannel? && !e.InvalidDirection?
  }

  lemma ProtocolErrorsAreRegloErrors(e: PumpError)
    requires e.CommandTimeout? || e.InvalidResponse? || e.RemoteError? || e.InvalidTubingId?
    ensures IsRegloIccPumpError(e)
  {
  }

  /** `PumpDirection(x)`: a member is itself, a literal is looked up. */
  function ToDirection(a: DirectionArg): (r: Result<PumpDirection>)
    ensures a.Member? ==> r == Ok(a.d)
    ensures a.Literal? ==> (r.Ok? <==> exists d :: DirectionValue(d) == a.text)
    ensures a.Literal? && r.Ok? ==> DirectionValue(r.value) == a.text
    ensures r.Err? ==> r.error == InvalidDirection(a.text)
  {
    match a
    case Member(d) => Ok(d)
    case Literal(v) =>
      match DirectionFromValue(v)
      case Some(d) => Ok(d)
      case None => Err(InvalidDirection(v))
  }

  /** Outcome of an operation that may raise. */
  datatype Result<T> = Ok(value: T) | Err(error: PumpError) {
    predicate IsFailure() {
      Err?
    }

    function PropagateFailure<U>(): Result<U>
      requires Err?
    {
      Err(error)
    }

    function Extract(): T
      requires Ok?
    {
      value
    }
  }
}
