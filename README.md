# Accounts, persons and cars: a Dafny model

This project models the stateful toy objects of a JavaScript teaching
repository about object-oriented programming:

- **Bank accounts** (`script.js`). `Account` keeps a ledger that is protected
  only by naming convention. `AccountEncap` keeps it in a private field, and its
  mutators return the receiver so that calls can be chained. A ledger is a list
  of signed amounts that only grows. `deposit(v)` appends `v`. `withdraw(v)`
  appends `-v`. `requestLoan(v)` asks `_approveLoan`, which always says yes, and
  then deposits `v`. Module `Ledger` holds both classes. It also holds `Replay`,
  the ledger that a given run of calls writes. Each class keeps a ghost record
  of the calls made on it, and its invariant `Valid()` states that the ledger
  equals `Replay` of that record.
- **The `account` object literal** (`script.js`). Its `latest` getter reads the
  last movement and its setter appends one. This is module `LatestAccessor`.
- **`Array.prototype.unique`** (`script.js`), which is `[...new Set(this)]`.
  Module `UniqueArray` models it as a pure function on sequences. Elements go
  into the set in order, and an element already present is ignored.
- **Persons** (`script.js`, `PersonCl` and its identical twin `PersonES6`). The
  `fullName` setter keeps a name only if it contains a space. The `age` getter
  counts from 2022. This is module `Persons`. The `fullName` getter returns
  `_fullName`, and the model reads the field `fullName` for it. `Age` is the
  getter's formula, and no contract restates it.
- **Cars** (`challenges.js`). `Car`/`EV` are written as constructor functions
  and `CarEs`/`EVCL` as classes. Their speed and charge change by fixed steps.
  This is module `Cars`. `EVCL.chargeBattery` writes the public `charge`
  property and never touches the private `#charge` that `accelerate` uses up.
  The model keeps that behaviour as written and proves that charging never
  refills `#charge`.

Inheritance is flattened: each subtype declares its own copy of the inherited
members it uses. `EV.Brake` is `Car`'s `brake`, and `EVCL.Brake` is `CarEs`'s.
Every amount, speed, charge and year is an `int`. A JavaScript `undefined` is
`None`.

The approval policy follows the code, not a pluggable policy: `_approveLoan`
(`Ledger.ApproveLoan`) returns `true` for every amount. That fact is used by
`RequestLoan`, whose contract says it appends exactly the amount, and by
`LoanIsDeposit`. `RequestLoan` and `Replay` still go through
`ApproveLoan`, so a refused loan would leave the ledger unchanged. In the code,
`AccountEncap.requestLoan` returns the receiver only inside the approved branch,
and otherwise `undefined`. The model returns `null` in that case.
`Account.requestLoan` returns nothing.

## Model

| member | source | states |
|---|---|---|
| `Ledger.ReplayLength` | script.js:437-454 | every deposit, withdrawal and loan request adds exactly one ledger entry, so the ledger has one entry per call |
| `Ledger.ReplayAt` | script.js:437-443 | entry `i` of the ledger is the signed amount of call `i`: history is kept in call order |
| `Ledger.ReplayAppend` | script.js:538-552 | the ledger after two runs of calls, one after the other, is the first run's ledger followed by the second's: it only grows at its end |
| `Ledger.WithdrawIsNegatedDeposit` | script.js:441-443 | a `withdraw(v)` anywhere in a run leaves the same ledger as a `deposit(-v)` there |
| `Ledger.LoanIsDeposit` | script.js:445-454 | since every loan is approved, a `requestLoan(v)` anywhere in a run leaves the same ledger as a `deposit(v)` |
| `Ledger.Account.constructor` | script.js:420-430 | owner, currency and pin are stored as given; the ledger starts empty |
| `Ledger.Account.GetMovements` | script.js:433-435 | returns a snapshot of the ledger with one entry per call made, entry `i` being call `i`'s signed amount |
| `Ledger.Account.Deposit` | script.js:437-439 | appends exactly the amount, unchecked; earlier entries unchanged; invariant kept |
| `Ledger.Account.Withdraw` | script.js:441-443 | appends exactly the negated amount; invariant kept |
| `Ledger.Account.RequestLoan` | script.js:445-454 | appends the amount if approved, and since approval always holds it appends exactly the amount |
| `Ledger.AccountEncap.constructor` | script.js:488-501 | owner, currency and private pin are stored as given; the private ledger starts empty |
| `Ledger.AccountEncap.GetMovements` | script.js:505-507 | returns a snapshot of the ledger with one entry per call made, in call order |
| `Ledger.AccountEncap.Deposit` | script.js:509-512 | appends exactly the amount and returns the same account |
| `Ledger.AccountEncap.Withdraw` | script.js:514-517 | appends exactly the negated amount and returns the same account |
| `Ledger.AccountEncap.RequestLoan` | script.js:519-530 | returns the same account when approved (null otherwise) and appends the amount; approval always holds |
| `Ledger.JonasRun` | script.js:457-465 | the five calls on `acc1` leave the ledger `[250, -140, 350, 100, 1000]` |
| `Ledger.BobRun` | script.js:538-553 | the same five calls on `acc2`, then the chain at line 552 acting on `acc2` itself, leave `[250, -140, 350, 100, 1000, 300, 500, -35, 25000, -4000]` |
| `LatestAccessor.AccountLiteral.constructor` | script.js:234-236 | the literal's owner and movements as given |
| `LatestAccessor.AccountLiteral.SetLatest` | script.js:238-246 | the setter appends the value and leaves the owner alone, and the `latest` getter then returns exactly that value (setter/getter round trip) |
| `LatestAccessor.LatestRun` | script.js:249-252 | `latest` reads 500, and after `latest = 50` the movements are `[200, 300, 400, 500, 50]` |
| `UniqueArray.Unique` | script.js:137-139 | the result has no duplicates and holds exactly the input's elements |
| `UniqueArray.UniqueKeepsFirstOccurrenceOrder` | script.js:137-139 | the result lists elements in the order of their first occurrence in the input |
| `UniqueArray.UniqueIgnoresRepeat` | script.js:138 | appending an element already present does not change the result |
| `UniqueArray.UniqueOfDistinct` | script.js:138 | an input without duplicates comes back unchanged |
| `UniqueArray.UniqueIdempotent` | script.js:137-139 | deduplicating twice equals deduplicating once |
| `UniqueArray.UniqueOfArr` | script.js:131-141 | `[1,2,3,4,5,6,6,6,5,5]` gives `[1,2,3,4,5,6]` |
| `Persons.Person.constructor` | script.js:158-161 | the name goes through the setter, so it is stored only if it contains a space; the birth year is stored |
| `Persons.Person.SetFullName` | script.js:172-183 | stores a name containing a space, and otherwise leaves `_fullName` unchanged (the same setter at script.js:346-350); in either case the `age` getter reads the same as before |
| `Persons.PersonRun` | script.js:197-211 | Jessica (1996) is 26 by the `age` getter; "Walter White" is stored; "Waler" (line 209) is not |
| `Cars.Car.constructor` | challenges.js:3-5 | make and speed as given |
| `Cars.Car.Accelerate` | challenges.js:7-10 | speed up by exactly 10, make unchanged |
| `Cars.Car.Brake` | challenges.js:12-15 | speed down by exactly 5, make unchanged |
| `Cars.EV.constructor` | challenges.js:28-30 | make, speed and charge as given |
| `Cars.EV.ChargeBattery` | challenges.js:35-37 | charge becomes exactly the given value, whatever it was; speed unchanged |
| `Cars.EV.Accelerate` | challenges.js:39-45 | speed up by exactly 20 and charge down by exactly 1 |
| `Cars.EV.Brake` | challenges.js:12-15 | inherited `brake`: speed down by exactly 5, charge unchanged |
| `Cars.CarEs.constructor` | challenges.js:56-58 | make and speed as given |
| `Cars.CarEs.Accelerate` | challenges.js:60-63 | speed up by exactly 10, make unchanged |
| `Cars.CarEs.Brake` | challenges.js:65-69 | speed down by exactly 5; returns the same car |
| `Cars.EVCL.constructor` | challenges.js:93-96 | the private `#charge` holds the given charge; the public `charge` is unset |
| `Cars.EVCL.Accelerate` | challenges.js:98-105 | speed up by 20, `#charge` down by 1, public `charge` unchanged; returns the same car |
| `Cars.EVCL.Brake` | challenges.js:65-69 | inherited `brake`: speed down by 5, both charges unchanged; returns the same car |
| `Cars.EVCL.ChargeBattery` | challenges.js:107-110 | writes the public `charge`, leaves `#charge` and speed unchanged; returns the same car |
| `Cars.EvclRunSpeed` | challenges.js:98-110 | after any run of calls on an `EVCL`, its speed has moved by +20 per `accelerate` and -5 per `brake` |
| `Cars.EvclChargingNeverRefills` | challenges.js:98-110 | after any run of calls, `#charge` is the initial charge less one per `accelerate`, however often `chargeBattery` was called |
| `Cars.EvclPublicCharge` | challenges.js:107-110 | after any run of calls, the public `charge` is the argument of the last `chargeBattery`, or unset if there was none |
| `Cars.CarRun` | challenges.js:17-25 | BMW 120 ends at 125, Mercedes 95 ends at 100 |
| `Cars.TeslaRun` | challenges.js:47-50 | Tesla: charge 90 after charging, speed 140 and charge 89 after accelerating, speed 135 after braking |
| `Cars.FordRun` | challenges.js:82-85 | Ford 120 ends at 125 |
| `Cars.RivianRun` | challenges.js:113-114 | the chain from speed 120 and `#charge` 23 ends at speed 155, `#charge` 21 and public `charge` 80, the state `EvclRun` gives for those calls |

## Left out

- Console output (`console.log`, `console.dir`) and the `alert` in the `fullName` setter are not modelled. A rejected name is a no-op.
- `navigator.language`, which the accounts store as `locale`, is not modelled. Neither is `document.querySelector('h1')`. Both are browser host calls.
- The prototype demonstrations are not modelled: `__proto__`, `isPrototypeOf`, `hasOwnProperty`, `instanceof`, `Object.create` linking, the static `hey` methods, and the `Person`/`Student`/`PersonProto` objects. They show language mechanics and have no state to specify.
- `calcAge`, `greet` and `introduce` are not modelled, because they only print.
- The `speedUS` getter and setter of `CarEs` are not modelled, because they are floating-point arithmetic with 1.6.
- JavaScript numbers are floating point. The model uses unbounded integers, because every value the modelled operations handle is an integer. Only the left-out `speedUS` produces fractions.
- `GetMovements` returns a value snapshot, so a caller cannot change the ledger through the returned list. In the source the internal array is returned by reference, and that aliasing is not modelled.
- JavaScript's `#private` and `_protected` access control is not modelled. The ledger field `movements` is a public `var`, so a client that may modify an account could assign it directly. What the model guarantees instead is that every account method requires and keeps `Valid()`, which ties the ledger to the history of calls.
- An approval policy that can be overridden is not modelled, because `_approveLoan` returns `true` in both classes.
