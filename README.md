# PyFlunt `Contract.requires`, modelled in Dafny

PyFlunt is a fluent validation library. A `Contract` collects notifications: each is a
(field, message) pair recording one failed check. The contract is valid while it holds none.
This project models the contract's generic check `requires(value, field, message=REQUIRED)`.
If `value` is empty, meaning falsy under Python's truth test and not a `bool`, the check
appends one notification. That notification carries `field` and `message.format(field)`.
In every case the check returns the same contract, so calls can be chained.

- `values.dfy` (module `Values`): one `Value` constructor per accepted category: str, int,
  float, bool, Decimal, list, tuple, set, dict, UUID, `Struct`, callable, generic iterable,
  generic object and `None`.
  - Python's truth protocol is written out as `DunderBool`, `DunderLen` and `Truthy`: use
    `__bool__` if the type defines it, otherwise `__len__() != 0`, otherwise true.
  - `IsEmpty` is the emptiness rule, stated category by category. Its contract proves that
    it is exactly PyFlunt's condition in `Contract.requires`, `not value and not isinstance(value, bool)`.
- `contract.dfy` (module `Contracts`):
  - the `Notification` datatype;
  - the `Contract` class, whose `notifications` field is a `seq` that its methods reassign;
  - `AfterRequires`, the ledger after one call, which specifies the `Requires` method;
  - `AfterChain`, the ledger after a chain of calls, with lemmas about it: what a chain
    appends, how many notifications it adds, when the contract stays valid, and how chains
    compose;
  - three client methods for the documented example, a two-call chain and the boolean case.

## Model

| member | source | states |
|---|---|---|
| `Values.Value` | flunt/validations/contract.py:135-149 | One constructor per category of the accepted `Union`, plus `int`. |
| `Values.DunderBool` | flunt/validations/contract.py:184 | What each category's `__bool__` returns, or nothing when the type defines none. |
| `Values.DunderLen` | flunt/validations/contract.py:184 | What each category's `__len__` returns, or nothing when the type defines none. |
| `Values.Truthy` | flunt/validations/contract.py:184 | Python's truth test behind `not value`: `__bool__`, else `__len__() != 0`, else true. |
| `Values.IsEmpty` | flunt/validations/contract.py:184 | The per-category emptiness table holds exactly when the value is falsy under Python's truth test (`__bool__`, else `__len__`, else true) and is not a `bool`. |
| `Values.BoolCarveOut` | flunt/validations/contract.py:184 | `True` and `False` are never empty, even though `False` is falsy. |
| `Values.FalsyValuesAreEmpty` | flunt/validations/contract.py:184 | `""`, `0`, `0.0`, `Decimal(0)`, `[]`, `()`, `set()`, `{}` and `None` are empty. |
| `Values.AlwaysTruthyCategories` | flunt/validations/contract.py:141-148 | A UUID, a `Struct` or a callable is truthy and never empty. |
| `Contracts.Format` | flunt/validations/contract.py:185 | `message.format(field)`: a stand-in that replaces the first `{}` with the field (see the `Format` line under "## Left out"). |
| `Contracts.FormatWithoutBraces` | flunt/validations/contract.py:185 | A message with no `{` and no `}` renders to itself whatever the field, as `str.format` does. |
| `Contracts.REQUIRED` | flunt/validations/contract.py:151 | The default message: a stand-in holding one `{}` placeholder (see the `REQUIRED` line under "## Left out"). |
| `Contracts.AfterRequires` | flunt/validations/contract.py:184-185 | One call grows the ledger by one when the value is empty and by zero otherwise. Earlier notifications stay untouched. The added notification is `(field, Format(message, field))`. |
| `Contracts.AfterChain` | flunt/validations/contract.py:184-186 | A chain of calls never shrinks the ledger, and never changes what it already held. |
| `Contracts.Failures` | flunt/validations/contract.py:184-185 | A chain's failures number exactly as many as its calls with an empty value. |
| `Contracts.ChainAppendsFailures` | flunt/validations/contract.py:184-186 | A chain appends exactly its failures, in call order, after the existing ledger. |
| `Contracts.ChainCount` | flunt/validations/contract.py:184-186 | The notifications a chain adds number exactly as many as its non-bool empty arguments. |
| `Contracts.CountEmptyZero` | flunt/validations/contract.py:184 | No argument is counted as empty exactly when every argument is non-empty. |
| `Contracts.ChainValidIff` | flunt/validations/contract.py:184-186 | A fresh contract stays valid through a chain if and only if no argument is empty. |
| `Contracts.BooleanChainAddsNothing` | flunt/validations/contract.py:184 | A chain of boolean arguments leaves the ledger exactly as it was. |
| `Contracts.ChainConcat` | flunt/validations/contract.py:186 | Chaining `a` and then `b` on the returned contract equals running `a + b` on the original. |
| `Contracts.Contract.constructor` | flunt/validations/contract.py:179 | `Contract()` starts with an empty ledger. |
| `Contracts.Contract.IsValid` | flunt/validations/contract.py:180 | `is_valid`: true exactly when the ledger holds no notification. |
| `Contracts.Contract.AddNotification` | flunt/validations/contract.py:185 | Appends exactly `(field, message)` at the end of the ledger and changes nothing else. |
| `Contracts.Contract.Requires` | flunt/validations/contract.py:133-186 | Returns the same instance whatever the outcome. The new ledger is `AfterRequires` of the old one. The default message is `REQUIRED`. |
| `Contracts.DocExample` | flunt/validations/contract.py:178-181 | `Contract().requires("", "field", "message")` is invalid and holds exactly `[("field", "message")]`. |
| `Contracts.ChainExample` | flunt/validations/contract.py:184-186 | `Contract().requires("", "a").requires("", "b")` holds two notifications, for `a` then `b`, on one contract. |
| `Contracts.BooleanExample` | flunt/validations/contract.py:184 | `Contract().requires(b, "field")` is valid for both booleans. |

## Left out

- The `@overload` declarations (flunt/validations/contract.py:55-131) are type-checker stubs with no runtime behaviour.
- The validators inherited from the string, email, bool, credit-card, commons and collections mixins (flunt/validations/contract.py:29-37) are not part of this model.
- `Notifiable` (flunt/notifications/notifiable.py) is not part of this model. The model keeps only what `requires` relies on: `add_notification` appends one pair, and `is_valid` means the ledger is empty. Reading the notifications back, merging another contract's notifications and clearing are not modelled.
- The `REQUIRED` message constant (flunt/constants/messages.py) is not part of this model. `Contracts.REQUIRED` is a stand-in that holds one `{}` placeholder. No property except `ChainExample`'s mentions it, and that one only through `Format`.
- `Format` covers only the single-argument case: the first `{}` becomes the field, and a message without `{}` is unchanged. Its only proved property, `FormatWithoutBraces`, is limited to messages with no brace, where it agrees with `str.format`. Numbered and named fields, `{{`/`}}` escapes, format specifications and the exceptions `str.format` raises for malformed templates are not modelled.
- Floats and Decimals are modelled as reals, so only "equals zero" is captured. NaN and infinities (truthy in Python) are not representable.
- A generic iterable or object carries the results of its own `__bool__` and `__len__` as data. The model does not run user code, does not consume lazy iterables, and does not model `__len__` raising or returning a non-integer.
- UUIDs are modelled as a natural number without the 128-bit bound. Only their truthiness matters here.
- Concurrent use of one contract is not modelled; the source is single-threaded.
