# SOLID examples: account creation and rectangles/squares

A Dafny model of the two snippets of the SOLID teaching repository that have
behaviour to state.

- **Account creation** (`accounts.dfy`, module `Accounts`, from `SRP.cs`).
  `AccountCreator` is built with an injected data-access collaborator. Its
  `CreateAccount` rejects a null or empty username or password with an
  `ArgumentException`. Otherwise it builds an `Account` from the two
  arguments and hands it to the collaborator's `SaveAccount`.
  - The collaborator is `DataStore`, a stand-in for `IDataAccess` that
    records every saved account in `saved: seq<Account>`.
  - A C# `null` string is `None` of `Option<string>`.
  - `Account` is a datatype. Its constructor holds the two strings verbatim,
    as the C# constructor (SRP.cs:73-77) does.
  - The exception is the result `Thrown(ArgumentException(message))`, with
    the source's message text.
  - `Step` is the pure effect of one call on the record. `Replay` folds
    `Step` over a series of calls. `Accepted` is an independent reference
    definition: the accounts of the accepted requests, in order.
- **Rectangles and squares** (`shapes.dfy`, module `Shapes`, from `LSP.cs`).
  In C#, `Square` derives from `Rectangle`. It overrides the virtual `Width`
  and `Height` setters so that each writes both sides. Dafny classes have no
  inheritance, so one class `Rectangle` carries the object's run-time type in
  `const kind` (`RectangleType` or `SquareType`), and each setter dispatches
  on it.
  - Both constructors start from sides 0.0, the C# default. They then call
    `SetWidth` and `SetHeight`, as the base constructor does through the
    virtual setters. This is how a square gets equal sides at construction.
  - `Valid()` is the square's class invariant `width == height`. Every
    constructor and setter establishes it.
  - `Assign` and `Run` give the pure effect of one assignment and of a
    series of assignments. The setters' postconditions tie each call to
    `Assign`.
  - `AssignThenMeasure` and `SubstitutionChangesArea` show the classic
    substitution problem. Assigning width `w` and then height `h` yields area
    `w * h` for a rectangle but `h * h` for a square. The closing comment of
    `LSP.cs` claims a square can stand in for a rectangle without surprises;
    this is the case where it cannot.

## Model

| member | source | states |
|---|---|---|
| `Accounts.DataStore.constructor` | SRP.cs:52-55 | a fresh recorder of saves starts with no saved accounts |
| `Accounts.DataStore.SaveAccount` | SRP.cs:52-55 | the saved account is appended to the record, and nothing else changes |
| `Accounts.AccountCreator.constructor` | SRP.cs:28-33 | the creator keeps the injected collaborator |
| `Accounts.AccountCreator.CreateAccount` | SRP.cs:35-48 | it throws exactly when the username or the password is null or empty, with the source's message, and then the record is unchanged; otherwise exactly one account holding the two arguments verbatim is appended; the collaborator field is unchanged, so every save reaches the injected one |
| `Accounts.ReplayAppendsAccepted` | SRP.cs:38-47 | after any series of calls the record is the old record followed by the accounts of the accepted calls, in call order, verbatim; one per accepted call and none per rejected one |
| `Accounts.ReplayKeepsRecordsComplete` | SRP.cs:38-44 | every account saved through `CreateAccount` has a non-empty username and password |
| `Accounts.WhitespaceOnlyIsSaved` | SRP.cs:38 | validation is `IsNullOrEmpty`, so blank-only non-empty strings are accepted and saved verbatim |
| `Accounts.CreateTwoAccounts` | SRP.cs:30-47 | a client: an empty username throws and saves nothing, then `("alice", "pw123")` is saved in the store given to the constructor |
| `Shapes.Rectangle.constructor` | LSP.cs:15-19 | a rectangle built with `(w, h)` has width `w` and height `h` |
| `Shapes.Rectangle.Square` | LSP.cs:41 | a square built with side `s` has width and height `s`, reached through the base constructor's calls to the overridden setters |
| `Shapes.Rectangle.SetWidth` | LSP.cs:29-33 | the width becomes `v`; a rectangle keeps its height, a square's height becomes `v`; the square invariant holds afterwards |
| `Shapes.Rectangle.SetHeight` | LSP.cs:35-39 | the height becomes `v`; a rectangle keeps its width, a square's width becomes `v`; the square invariant holds afterwards |
| `Shapes.Rectangle.Area` | LSP.cs:21-24 | the area is the product of the current sides; for a valid square it is the side squared |
| `Shapes.CalculateArea` | LSP.cs:46-49 | the calculator returns the shape's area for either run-time type; for a square it is the side squared |
| `Shapes.SquareStaysSquare` | LSP.cs:29-39 | a square's sides are equal after any series of assignments to either property |
| `Shapes.SquareTakesLastValue` | LSP.cs:29-39 | after a non-empty series of assignments, both sides of a square equal the last value assigned |
| `Shapes.RectangleSidesIndependent` | LSP.cs:12-13 | assignments to a rectangle's width never change its height, and assignments to its height never change its width |
| `Shapes.SubstitutionChangesArea` | LSP.cs:52-58 | assigning width `w` then height `h` gives area `w * h` on a rectangle but `h * h` on a square |
| `Shapes.AssignThenMeasure` | LSP.cs:44-58 | a client passing both a rectangle and a square to `CalculateArea` after the same two assignments gets `w * h` and `h * h` |

## Left out

- `DataAccess.SaveAccount` (SRP.cs:58-65) is an empty database stub. Only the abstract effect "the account was handed over" is modelled, by `DataStore`.
- `Account`'s public property setters (SRP.cs:70-71) are not modelled: nothing in the modelled code assigns them after construction, so `Account` is a value.
- A null collaborator passed to the `AccountCreator` constructor is not modelled. In C# it fails only later, with a null-reference error at `SaveAccount`.
- `Accounts.Replay` assumes that each caller catches the exception and goes on with its next call. A real uncaught exception ends the caller.
- Floating point: `double` is modelled as exact `real`. IEEE rounding of `Area` is not modelled. Neither is NaN, for which a C# square's `Width == Height` is false even though both sides hold the same value.
- Inheritance and virtual dispatch are modelled by the `kind` tag on one class, since Dafny classes cannot be subclassed. Other possible subclasses of `Rectangle` are not modelled.
- The property getters (LSP.cs:31, LSP.cs:37) are modelled by reading the `width` and `height` fields directly.
- `DIP.cs`: console and file logging are I/O, and `UserService.RegisterUser` has an empty try body, so there is nothing to state.
- `ISP.cs`: every method body is an empty stub. These files have interface shapes only.
- `OCP.cs`: circle area and shipping costs are floating-point formulas (`Math.PI`, `Math.Pow`, `* 0.05`, `* 0.1`), and `ShippingCalculator` only delegates to an interface.
