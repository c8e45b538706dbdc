/** What the Terraform plugin framework hands the resources of
    internal/provider and what they hand back: attribute values with their
    null and unknown flags, diagnostics, and the state a call stores. */
module Framework {
  import opened Wrappers
  import opened Errors

  /** `types.String`: a null or unknown value carries "" in `value`. */
  datatype Str = Str(isNull: bool, isUnknown: bool, value: string)

  /** `types.Bool`: a null or unknown value carries false in `value`. */
  datatype BoolV = BoolV(isNull: bool, isUnknown: bool, value: bool)

  /** `types.Int64`. */
  datatype IntV = IntV(isNull: bool, isUnknown: bool, value: int)

  /** `types.String{Value: v}`: a known value. */
  function Known(v: string): (s: Str)
    ensures !s.isNull && !s.isUnknown && s.value == v
  {
    Str(false, false, v)
  }

  /** `types.Bool{Value: false}` in place of a null or unknown bool. */
  function DefaultFalse(b: BoolV): (r: BoolV)
    ensures !r.isNull && !r.isUnknown
    ensures !b.isNull && !b.isUnknown ==> r == b
    ensures b.isNull || b.isUnknown ==> !r.value
  {
    if b.isNull || b.isUnknown then BoolV(false, false, false) else b
  }

  /** A null string, as an attribute nobody set. */
  const Unset: Str := Str(true, false, "")

  /** The framework's own invariant: a null or unknown string holds "". */
  predicate WellFormed(s: Str) {
    (s.isNull || s.isUnknown) ==> s.value == ""
  }

  /** Why a call records an error or a warning. The wording of the messages
      is not modelled, only which condition raised them. */
  datatype Problem =
    | Client(err: Error)          // a client call returned an error
    | InvalidValue                // gamerule value neither an integer nor true/false
    | InvalidMode                 // not one of the four game modes
    | InvalidDirection            // bed facing not north/south/east/west
    | InvalidSize                 // chest size not single/double
    | BlankPlayer                 // op with an empty player name
    | TeamRequired                // team member without a team
    | NoTarget                    // team member with no target set
    | MultipleTargets             // team member with several targets set
    | UnknownKind                 // team member kind none of player/selector/entity
    | BadImportId                 // an import id of the wrong shape
    | InPlaceUpdate               // team member changes are not applied in place

  /** `AddError` (the call fails) or `AddWarning` (it still succeeds). */
  datatype Diag = Fault(problem: Problem) | Warning(problem: Problem)

  /** What a call leaves: the state it stores, if it stores one, and the
      diagnostics it records. */
  datatype Outcome<D> = Outcome(state: Option<D>, diags: seq<Diag>)

  predicate HasError(diags: seq<Diag>) {
    exists i :: 0 <= i < |diags| && diags[i].Fault?
  }

  /** A call that records one error and stores nothing. */
  function Rejected<D>(p: Problem): (o: Outcome<D>)
    ensures o.state.None? && HasError(o.diags)
  {
    assert [Fault(p)][0].Fault?;
    Outcome(None, [Fault(p)])
  }

  /** A call that stores `d` and records nothing. */
  function Stored<D>(d: D): (o: Outcome<D>)
    ensures o.state == Some(d) && !HasError(o.diags)
  {
    Outcome(Some(d), [])
  }

  /** After the last client call of a Create, Read or Update: its error
      fails the call, otherwise `d` is stored. */
  function Settle<D>(err: Option<Error>, d: D): (o: Outcome<D>)
    ensures o.state.Some? <==> err.None?
    ensures HasError(o.diags) <==> err.Some?
    ensures err.None? ==> o.state == Some(d)
  {
    match err
    case Some(e) => Rejected(Client(e))
    case None => Stored(d)
  }

  /** A client error as the problem it records. */
  function Lift(err: Option<Error>): (p: Option<Problem>)
    ensures p.None? <==> err.None?
    ensures err.Some? ==> p == Some(Client(err.value))
  {
    match err
    case Some(e) => Some(Client(e))
    case None => None
  }

  /** A Delete whose client error is reported as an error. */
  function Removed(err: Option<Error>): (diags: seq<Diag>)
    ensures HasError(diags) <==> err.Some?
  {
    match err
    case Some(e) => assert [Fault(Client(e))][0].Fault?; [Fault(Client(e))]
    case None => []
  }

  /** A Delete whose client error is only a warning: it never fails. */
  function Warned(err: Option<Error>): (diags: seq<Diag>)
    ensures !HasError(diags)
    ensures |diags| == 1 <==> err.Some?
  {
    match err
    case Some(e) => [Warning(Client(e))]
    case None => []
  }
}
