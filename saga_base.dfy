/** The saga building blocks of saga/saga.go: the `BaseSaga` every saga embeds, the parameter
    check a manager must pass before registration, and decimal formatting used for payment ids. */
module SagaBase {
  import opened Wrappers
  import opened DomainEvents

  /** `BaseSaga`: identity and type are fixed; the saga is alive between `StartSaga` and
      `EndSaga`. */
  class BaseSaga {
    const sagaId: string
    const sagaType: string
    var isAlive: bool

    /** `NewBaseSaga(id, sagaType)`: a saga that has not started. */
    constructor (id: string, sagaType: string)
      ensures sagaId == id && this.sagaType == sagaType && !isAlive
    {
      sagaId := id;
      this.sagaType := sagaType;
      isAlive := false;
    }

    function SagaType(): string
    {
      sagaType
    }

    function SagaIdentity(): string
    {
      sagaId
    }

    function IsAlive(): bool
      reads this
    {
      isAlive
    }

    method StartSaga()
      modifies this
      ensures isAlive
    {
      isAlive := true;
    }

    method EndSaga()
      modifies this
      ensures !isAlive
    {
      isAlive := false;
    }
  }

  /** The name a `SagaFuncHandler` reports as both its type and its identity. */
  const FuncHandlerName := "saga_func_handler"

  /** The manager fields `checkParam` looks at; a Go `nil` factory or resolver is `false` in
      `hasFactory` or `hasResolver`. */
  datatype ManagerParams = ManagerParams(
    sagaType: string,
    hasFactory: bool,
    startEvents: seq<Topic>,
    endEvents: seq<Topic>,
    hasResolver: bool)

  /** `checkParam`: the first missing parameter, in the order type, factory, start events,
      end events, resolver. The "on" events may be empty. */
  function CheckParam(p: ManagerParams): (r: Outcome)
    ensures r.Pass? <==>
      p.sagaType != "" && p.hasFactory && p.startEvents != [] && p.endEvents != [] && p.hasResolver
    ensures p.sagaType == "" ==> r == Fail(Msg("SagaType missing"))
    ensures p.sagaType != "" && !p.hasFactory ==> r == Fail(Msg("SagaFactory missing"))
    ensures p.sagaType != "" && p.hasFactory && p.startEvents == [] ==> r == Fail(Msg("StartEvents missing"))
    ensures p.sagaType != "" && p.hasFactory && p.startEvents != [] && p.endEvents == [] ==>
      r == Fail(Msg("EndEvents missing"))
    ensures p.sagaType != "" && p.hasFactory && p.startEvents != [] && p.endEvents != [] && !p.hasResolver ==>
      r == Fail(Msg("codec identity Resolver  missing"))
  {
    if p.sagaType == "" then Fail(Msg("SagaType missing"))
    else if !p.hasFactory then Fail(Msg("SagaFactory missing"))
    else if |p.startEvents| == 0 then Fail(Msg("StartEvents missing"))
    else if |p.endEvents| == 0 then Fail(Msg("EndEvents missing"))
    else if !p.hasResolver then Fail(Msg("codec identity Resolver  missing"))
    else Pass
  }

  /** `strconv.FormatInt(n, 10)`: optional minus sign, then the decimal digits without
      leading zeros. */
  function FormatInt(n: int): string
  {
    if n < 0 then "-" + Digits(-n) else Digits(n)
  }

  function DigitChar(d: int): char
    requires 0 <= d < 10
  {
    "0123456789"[d]
  }

  function Digits(n: nat): (r: string)
    ensures |r| >= 1
    decreases n
  {
    if n < 10 then [DigitChar(n)] else Digits(n / 10) + [DigitChar(n % 10)]
  }

  predicate IsDigit(c: char)
  {
    '0' <= c <= '9'
  }

  /** Reading a string of digits back as a number. */
  function ParseDigits(s: string): int
    requires forall i :: 0 <= i < |s| ==> IsDigit(s[i])
    decreases |s|
  {
    if s == [] then 0
    else ParseDigits(s[..|s| - 1]) * 10 + (s[|s| - 1] as int - '0' as int)
  }

  /** Decimal formatting produces digits only, with no leading zero, and reads back as the
      number formatted: distinct numbers give distinct strings. */
  lemma {:induction false} DigitsRoundTrip(n: nat)
    ensures forall i :: 0 <= i < |Digits(n)| ==> IsDigit(Digits(n)[i])
    ensures Digits(n)[0] == '0' ==> n == 0
    ensures ParseDigits(Digits(n)) == n
    decreases n
  {
    if n >= 10 {
      DigitsRoundTrip(n / 10);
      var s := Digits(n);
      assert s[..|s| - 1] == Digits(n / 10);
      assert s[0] == Digits(n / 10)[0];
    }
  }

  lemma FormatIntInjective(a: int, b: int)
    requires FormatInt(a) == FormatInt(b)
    ensures a == b
  {
    DigitsRoundTrip(if a < 0 then -a else a);
    DigitsRoundTrip(if b < 0 then -b else b);
    if a < 0 && b < 0 {
      assert Digits(-a) == FormatInt(a)[1..] == FormatInt(b)[1..] == Digits(-b);
    }
  }
}
