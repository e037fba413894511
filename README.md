# errx in Dafny

A model of the Go package `errx`. The package has one error type, `CustomError`. It holds five fields:

- a cause (`base`, itself a Go `error`);
- a message;
- an HTTP status code;
- an application-defined code (`customCode`);
- a `context.Context`.

`New(msg)` allocates a record that holds the message and the background context. The accessors `Error`, `Unwrap`, `Cause`, `HTTPCode`, `CustomCode` and `Context` each read one field. The setters `Wrap`, `WithHttpCode`, `WithCustomCode` and `WithContext` each overwrite one field in place and return a Go `error` value.

Everything is in `errx.dfy`, module `Errx`:

- `CustomError` is a class with the five fields. The accessors are functions with `reads this`. Each setter is a method whose `modifies` frame is the single field it writes.
- `Err` is a Go `error` interface value: `Nil`, an error of some other type (`Foreign`), or a pointer to a `CustomError` (`Custom`).
- `Err` can also hold a nil `*CustomError` (`Custom(null)`), which is a non-nil interface value.
- `Context` is `Background`, a nil context (`NilContext`) or some other, opaque, handle.
- `ErrState` is the record as a value. `Call` is one setter call. `Step` is the effect of one call, and `Run` is the effect of successive calls on the same record.
- Each setter's postcondition says `State() == Step(old(State()), call)`. It also says, through the accessors, which field changed and what is returned. `RunSnoc` lets a sequence of method calls be read as one `Run`.

`errx.go` has no option-list API:

- `New` takes only a message.
- `Wrap` is a method that sets the cause and returns its argument.
- `Error()` returns the bare message.

The comment on `Context()` (errx.go:72-73) says it returns the background context when no context was associated. The code returns whatever the field holds. After `WithContext(nil)`, and on a zero-valued record, that is a nil context. The model follows the code.

## Model

| member | source | states |
|---|---|---|
| `Errx.Initial` | errx.go:17-22 | the new record holds the given message, and every writable field is unset: no cause, code 0, code 0, background context |
| `Errx.New` | errx.go:17-22 | returns a non-nil `error` that points to a freshly allocated `CustomError` whose state is `Initial(msg)` |
| `Errx.CustomError.constructor` | errx.go:18-21 | after the composite literal, `Error()` is the message, `Cause()` and `Unwrap()` are nil, both codes are 0 and `Context()` is the background context |
| `Errx.CustomError.Zero` | errx.go:8-14 | a zero-valued record built without `New` has an empty message, no cause, both codes 0 and a nil context |
| `Errx.CustomError.Error` | errx.go:25-27 | the error text is the record's own message, whatever the cause holds |
| `Errx.CustomError.Unwrap` | errx.go:31-33 | returns the stored cause, which is the record's base field |
| `Errx.CustomError.Cause` | errx.go:68-70 | returns the same value as `Unwrap()`, always |
| `Errx.CustomError.HTTPCode` | errx.go:56-58 | returns the value held in the HTTP-code field |
| `Errx.CustomError.CustomCode` | errx.go:62-64 | returns the value held in the custom-code field |
| `Errx.CustomError.Context` | errx.go:74-76 | returns the value held in the context field |
| `Errx.CustomError.Wrap` | errx.go:49-52 | afterwards `Cause()` and `Unwrap()` are `err`, and `Wrap(Nil)` clears the cause; message, both codes and context are unchanged; it returns `err`, not the receiver |
| `Errx.CustomError.WithHttpCode` | errx.go:82-85 | afterwards `HTTPCode()` is the given code; message, cause, custom code and context are unchanged; it returns the receiver |
| `Errx.CustomError.WithCustomCode` | errx.go:91-94 | afterwards `CustomCode()` is the given code; message, cause, HTTP code and context are unchanged; it returns the receiver |
| `Errx.CustomError.WithContext` | errx.go:100-103 | afterwards `Context()` is the given context; message, cause and both codes are unchanged; it returns the receiver |
| `Errx.Step` | errx.go:49-103 | one setter call writes its own target field only; the message and the other three fields keep their values |
| `Errx.Run` | errx.go:49-103 | no sequence of setter calls on a record changes its message, and so no sequence changes its `Error()` text |
| `Errx.RunSnoc` | errx.go:78-81 | a run followed by one more call is the longer run, so successive method calls on one record compose into `Run` |
| `Errx.RunLastWriteWins` | errx.go:82-103 | after any sequence of setter calls, each field holds the value of the last call that wrote it, and a field that no call wrote keeps its old value |
| `Errx.UnwrittenFieldIsUnset` | errx.go:54-64 | on a record from `New`, a field that no setter has written reads as unset: `HTTPCode()` and `CustomCode()` return 0, the cause is nil, the context is the background one |
| `Errx.OverwriteSameField` | errx.go:82-85 | two writes to the same field, such as `WithHttpCode(1)` then `WithHttpCode(2)`, leave the record as if only the second write had happened |
| `Errx.NilValuesAreStored` | errx.go:49-103 | setters store nil values as given: `WithContext(nil)` leaves a nil context, not the background one, and wrapping a nil `*CustomError` leaves a cause that is not nil |
| `Errx.DistinctFieldsCommute` | errx.go:82-103 | two setter calls that write different fields give the same record in either order |
| `Errx.SetTwiceThenWrap` | errx.go:49-52 | a client: after `WithHttpCode(a)`, `WithHttpCode(b)` and `Wrap(c)`, `HTTPCode()` is `b`, `Cause()` is `c`, the message is unchanged, `Wrap` returned `c`, and the state is the matching `Run` |

## Left out

- `Is` (errx.go:37-39) and `As` (errx.go:43-45): both hand off to `errors.Is` and `errors.As` in Go's standard library. Those walk the `Unwrap` chain and assign targets by reflection. The `errors` package is not part of this model.
- `context.Context` behaviour (cancellation, deadlines, values): the package only stores and returns the handle. So the handle is opaque, and `Background` stands for `context.Background()`.
- The text of errors of other types (`Foreign`): `CustomError.Error()` never reads its cause, so only the identity of such an error matters here.
- Go interface dispatch and aliasing: a `CustomError` as an `error` is modelled as `Custom(ref)`, and two such values are equal exactly when they are the same pointer. Self-referential causes (`e.Wrap(e)`) are allowed, as in Go. Nothing here walks the chain.
- Nil receivers: calling a method on a nil `*CustomError` panics in Go. Receivers in the model are non-null references.
- Go's `int` is 32 or 64 bits wide, depending on the platform. The codes are only stored and returned, never computed with, so they are modelled as unbounded `int`.
