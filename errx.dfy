/**
  A model of package errx: an error record (`CustomError`) that carries a
  message, an optional cause, an HTTP status code, an application-defined
  code and a request context, with accessors and chainable setters that
  update the record in place.

  The record's fields are modelled as fields of a class; the value-level
  view of a record (`ErrState`) and of one setter call (`Call`) is what the
  methods' contracts and the lemmas about successive calls are stated in.
 */
module Errx {

  /** A `context.Context` handle. The package only stores and returns it;
      `Background` stands for `context.Background()`, `NilContext` for a nil
      interface value, and any other handle is identified by an opaque
      number. */
  datatype Context = Background | NilContext | Handle(id: nat)

  /** A Go `error` interface value: nil, an error of some other type
      (identified by an opaque number), or a `*CustomError`. The pointer may
      itself be nil: `Custom(null)` is a non-nil interface holding a nil
      pointer, which is not `Nil`. */
  datatype Err = Nil | Foreign(id: nat) | Custom(e: CustomError?)

  /** The value held by a `CustomError` at one moment. */
  datatype ErrState = ErrState(
    base: Err,
    message: string,
    httpCode: int,
    customCode: int,
    ctx: Context)

  /** The fields a setter can write. `message` is not among them: once a
      record exists, no method changes its message. */
  datatype Field = BaseField | HttpCodeField | CustomCodeField | ContextField

  /** The content of one writable field. */
  datatype FieldValue = ErrField(err: Err) | CodeField(code: int) | CtxField(ctx: Context)

  function Get(s: ErrState, f: Field): FieldValue {
    match f
    case BaseField => ErrField(s.base)
    case HttpCodeField => CodeField(s.httpCode)
    case CustomCodeField => CodeField(s.customCode)
    case ContextField => CtxField(s.ctx)
  }

  /** What a field holds when no setter has written it: no cause, code 0,
      the background context. */
  function Unset(f: Field): FieldValue {
    match f
    case BaseField => ErrField(Nil)
    case HttpCodeField => CodeField(0)
    case CustomCodeField => CodeField(0)
    case ContextField => CtxField(Background)
  }

  /** The record `New(msg)` allocates. */
  function Initial(msg: string): (s: ErrState)
    ensures s.message == msg
    ensures forall f :: Get(s, f) == Unset(f)
  {
    ErrState(Nil, msg, 0, 0, Background)
  }

  /** One call of a setter on a record: `Wrap(err)`, `WithHttpCode(code)`,
      `WithCustomCode(code)` or `WithContext(ctx)`. */
  datatype Call =
    | WrapWith(cause: Err)
    | SetHttpCode(code: int)
    | SetCustomCode(code: int)
    | SetContext(ctx: Context)

  /** The field a call writes. */
  function Target(c: Call): Field {
    match c
    case WrapWith(_) => BaseField
    case SetHttpCode(_) => HttpCodeField
    case SetCustomCode(_) => CustomCodeField
    case SetContext(_) => ContextField
  }

  /** The value a call writes into its target field. */
  function Written(c: Call): FieldValue {
    match c
    case WrapWith(err) => ErrField(err)
    case SetHttpCode(code) => CodeField(code)
    case SetCustomCode(code) => CodeField(code)
    case SetContext(ctx) => CtxField(ctx)
  }

  /** The effect of one setter call: its target field takes the written
      value, and the message and every other field keep theirs. */
  function Step(s: ErrState, c: Call): (r: ErrState)
    ensures r.message == s.message
    ensures Get(r, Target(c)) == Written(c)
    ensures forall f :: f != Target(c) ==> Get(r, f) == Get(s, f)
  {
    match c
    case WrapWith(err) => s.(base := err)
    case SetHttpCode(code) => s.(httpCode := code)
    case SetCustomCode(code) => s.(customCode := code)
    case SetContext(ctx) => s.(ctx := ctx)
  }

  /** The effect of successive setter calls on the same record, first call
      first. Whatever the calls, the message is the one the record had. */
  function Run(s: ErrState, calls: seq<Call>): (r: ErrState)
    ensures r.message == s.message
    decreases |calls|
  {
    if calls == [] then s else Run(Step(s, calls[0]), calls[1..])
  }

  /** `calls[i]` is the last call in `calls` that writes field `f`. */
  ghost predicate LastWriteAt(calls: seq<Call>, f: Field, i: int) {
    0 <= i < |calls| && Target(calls[i]) == f &&
    forall j :: i < j < |calls| ==> Target(calls[j]) != f
  }

  /** No call in `calls` writes field `f`. */
  ghost predicate NeverWrites(calls: seq<Call>, f: Field) {
    forall j :: 0 <= j < |calls| ==> Target(calls[j]) != f
  }

  /** If no call in `calls` writes `f`, no call in its tail does. */
  lemma NeverWritesTail(calls: seq<Call>, f: Field)
    requires calls != [] && forall j :: 1 <= j < |calls| ==> Target(calls[j]) != f
    ensures NeverWrites(calls[1..], f)
  {
  }

  /** One more call after a run is the run extended by that call: this is
      what connects a sequence of method calls on a `CustomError` to `Run`. */
  lemma {:induction false} RunSnoc(s: ErrState, calls: seq<Call>, c: Call)
    ensures Run(s, calls + [c]) == Step(Run(s, calls), c)
    decreases |calls|
  {
    if calls == [] {
      assert calls + [c] == [c];
    } else {
      assert (calls + [c])[1..] == calls[1..] + [c];
      RunSnoc(Step(s, calls[0]), calls[1..], c);
    }
  }

  /** Last write wins, field by field: after any sequence of setter calls a
      field holds what the last call writing it wrote, and a field no call
      writes keeps its value. */
  lemma {:induction false} RunLastWriteWins(s: ErrState, calls: seq<Call>, f: Field)
    ensures NeverWrites(calls, f) ==> Get(Run(s, calls), f) == Get(s, f)
    ensures forall i :: LastWriteAt(calls, f, i) ==> Get(Run(s, calls), f) == Written(calls[i])
    decreases |calls|
  {
    if calls != [] {
      var rest := calls[1..];
      RunLastWriteWins(Step(s, calls[0]), rest, f);
      if NeverWrites(calls, f) {
        assert Target(calls[0]) != f;
        NeverWritesTail(calls, f);
      }
      forall i | LastWriteAt(calls, f, i)
        ensures Get(Run(s, calls), f) == Written(calls[i])
      {
        if i == 0 {
          NeverWritesTail(calls, f);
        } else {
          assert LastWriteAt(rest, f, i - 1) by {
            forall j | i - 1 < j < |rest| ensures Target(rest[j]) != f {
              assert rest[j] == calls[j + 1];
            }
          }
        }
      }
    }
  }

  /** A field of a new record that no setter has written reads as unset:
      `HTTPCode()` and `CustomCode()` return 0, `Cause()` and `Unwrap()` nil
      and `Context()` the background context. */
  lemma UnwrittenFieldIsUnset(msg: string, calls: seq<Call>, f: Field)
    requires NeverWrites(calls, f)
    ensures Get(Run(Initial(msg), calls), f) == Unset(f)
    ensures Run(Initial(msg), calls).message == msg
  {
    RunLastWriteWins(Initial(msg), calls, f);
  }

  /** Two writes to the same field: the second one is what remains. */
  lemma {:induction false} OverwriteSameField(s: ErrState, c1: Call, c2: Call)
    requires Target(c1) == Target(c2)
    ensures Run(s, [c1, c2]) == Step(s, c2)
  {
    RunLastWriteWins(s, [c1, c2], Target(c2));
    assert LastWriteAt([c1, c2], Target(c2), 1);
    forall f | f != Target(c2)
      ensures Get(Run(s, [c1, c2]), f) == Get(Step(s, c2), f)
    {
      RunLastWriteWins(s, [c1, c2], f);
    }
    ExtensionalByFields(Run(s, [c1, c2]), Step(s, c2));
  }

  /** Writes to different fields can be made in either order. */
  lemma DistinctFieldsCommute(s: ErrState, c1: Call, c2: Call)
    requires Target(c1) != Target(c2)
    ensures Run(s, [c1, c2]) == Run(s, [c2, c1])
  {
  }

  /** Setters store nil values as given: after `WithContext(nil)` the
      context is nil rather than the background context, and after wrapping
      a nil `*CustomError` the cause is a non-nil interface value. */
  lemma NilValuesAreStored(s: ErrState)
    ensures Step(s, SetContext(NilContext)).ctx == NilContext != Background
    ensures Step(s, WrapWith(Custom(null))).base != Nil
  {
  }

  /** Two records with the same message and the same writable fields are
      the same record. */
  lemma ExtensionalByFields(a: ErrState, b: ErrState)
    requires a.message == b.message
    requires forall f :: Get(a, f) == Get(b, f)
    ensures a == b
  {
    assert Get(a, BaseField) == Get(b, BaseField);
    assert Get(a, HttpCodeField) == Get(b, HttpCodeField);
    assert Get(a, CustomCodeField) == Get(b, CustomCodeField);
    assert Get(a, ContextField) == Get(b, ContextField);
  }

  /** The package's error type. Each accessor reads one field; each setter
      overwrites one field in place and returns an `error` value. */
  class CustomError {
    var base: Err
    var message: string
    var httpCode: int
    var customCode: int
    var ctx: Context

    /** The record as a value. */
    function State(): ErrState
      reads this
    {
      ErrState(base, message, httpCode, customCode, ctx)
    }

    /** The composite literal in `New`: the message is given, the context is
        the background one, and every other field is Go's zero value. */
    constructor (msg: string)
      ensures State() == Initial(msg)
      ensures Error() == msg && Cause() == Nil && Unwrap() == Nil
      ensures HTTPCode() == 0 && CustomCode() == 0 && Context() == Background
    {
      base := Nil;
      message := msg;
      httpCode := 0;
      customCode := 0;
      ctx := Background;
    }

    /** The zero value of the exported struct (`&CustomError{}`,
        `new(CustomError)` or a declared variable), which a client can build
        without `New`: empty message, nil cause, both codes 0 and a nil
        context, not the background one. */
    constructor Zero()
      ensures Error() == "" && Cause() == Nil && Unwrap() == Nil
      ensures HTTPCode() == 0 && CustomCode() == 0 && Context() == NilContext
    {
      base := Nil;
      message := "";
      httpCode := 0;
      customCode := 0;
      ctx := NilContext;
    }

    /** The error text is the record's own message; the cause's text is
        not part of it. */
    function Error(): (text: string)
      reads this
      ensures text == State().message
    {
      message
    }

    /** The underlying cause, for Go's chain inspection. */
    function Unwrap(): (cause: Err)
      reads this
      ensures cause == State().base
      ensures Get(State(), BaseField) == ErrField(cause)
    {
      base
    }

    /** The underlying cause; always the same value as `Unwrap()`. */
    function Cause(): (cause: Err)
      reads this
      ensures cause == Unwrap()
    {
      base
    }

    /** The HTTP status code: 0 until `WithHttpCode` sets it. */
    function HTTPCode(): (code: int)
      reads this
      ensures Get(State(), HttpCodeField) == CodeField(code)
    {
      httpCode
    }

    /** The application-defined code: 0 until `WithCustomCode` sets it. */
    function CustomCode(): (code: int)
      reads this
      ensures Get(State(), CustomCodeField) == CodeField(code)
    {
      customCode
    }

    /** The associated context: the background context until
        `WithContext` sets another. */
    function Context(): (c: Context)
      reads this
      ensures Get(State(), ContextField) == CtxField(c)
    {
      ctx
    }

    /** Records `err` as the cause and returns `err` itself, not the
        receiver. `Wrap(Nil)` clears the cause. */
    method Wrap(err: Err) returns (r: Err)
      modifies this`base
      ensures State() == Step(old(State()), WrapWith(err))
      ensures Cause() == err && Unwrap() == err
      ensures Error() == old(Error()) && HTTPCode() == old(HTTPCode())
      ensures CustomCode() == old(CustomCode()) && Context() == old(Context())
      ensures r == err
    {
      base := err;
      r := err;
    }

    /** Sets the HTTP status code and returns the receiver, for chaining. */
    method WithHttpCode(code: int) returns (r: Err)
      modifies this`httpCode
      ensures State() == Step(old(State()), SetHttpCode(code))
      ensures HTTPCode() == code
      ensures Error() == old(Error()) && Cause() == old(Cause())
      ensures CustomCode() == old(CustomCode()) && Context() == old(Context())
      ensures r == Custom(this)
    {
      httpCode := code;
      r := Custom(this);
    }

    /** Sets the application-defined code and returns the receiver. */
    method WithCustomCode(code: int) returns (r: Err)
      modifies this`customCode
      ensures State() == Step(old(State()), SetCustomCode(code))
      ensures CustomCode() == code
      ensures Error() == old(Error()) && Cause() == old(Cause())
      ensures HTTPCode() == old(HTTPCode()) && Context() == old(Context())
      ensures r == Custom(this)
    {
      customCode := code;
      r := Custom(this);
    }

    /** Sets the context and returns the receiver. */
    method WithContext(c: Context) returns (r: Err)
      modifies this`ctx
      ensures State() == Step(old(State()), SetContext(c))
      ensures Context() == c
      ensures Error() == old(Error()) && Cause() == old(Cause())
      ensures HTTPCode() == old(HTTPCode()) && CustomCode() == old(CustomCode())
      ensures r == Custom(this)
    {
      ctx := c;
      r := Custom(this);
    }
  }

  /** `New(msg)`: a fresh `CustomError` carrying `msg`, returned as a
      non-nil `error`. */
  method New(msg: string) returns (r: Err)
    ensures r.Custom? && r.e != null && fresh(r.e)
    ensures r.e.State() == Initial(msg)
  {
    var e := new CustomError(msg);
    r := Custom(e);
  }

  /** A client of the methods above: two `WithHttpCode` calls leave the
      second code, `Wrap` hands back its argument rather than the receiver,
      and neither touches the message. */
  method SetTwiceThenWrap(msg: string, first: int, second: int, cause: Err) returns (r: Err, e: CustomError)
    ensures fresh(e)
    ensures r == cause
    ensures e.HTTPCode() == second && e.Cause() == cause && e.Error() == msg
    ensures e.State() == Run(Initial(msg), [SetHttpCode(first), SetHttpCode(second), WrapWith(cause)])
  {
    e := new CustomError(msg);
    ghost var calls: seq<Call> := [];
    var x := e.WithHttpCode(first);
    RunSnoc(Initial(msg), calls, SetHttpCode(first));
    calls := calls + [SetHttpCode(first)];
    x := e.WithHttpCode(second);
    RunSnoc(Initial(msg), calls, SetHttpCode(second));
    calls := calls + [SetHttpCode(second)];
    r := e.Wrap(cause);
    RunSnoc(Initial(msg), calls, WrapWith(cause));
    calls := calls + [WrapWith(cause)];
    assert calls == [SetHttpCode(first), SetHttpCode(second), WrapWith(cause)];
  }
}
