# CeSiente loan back end: a verified model

The CeSiente back end is a REST service for a small lender. Clients ask for loans. The service prices each loan with a fixed-payment (annuity) formula at a rate that depends on the term and is read from a configuration collection. It stores the loan and its application in MongoDB. An administrator then approves or rejects the loan, edits the configuration, and reads a dashboard of counts and totals.

The model has five modules. Each maps to a part of `server.js` or `models.js`:

- **`Wrappers`** defines `Option` and `Result`.
- **`Models`** covers the schemas of `models.js`:
  - one record per collection;
  - the three enumerations, with their stored names;
  - the defaults and the `required` rules.
  - a loan's payment and total as a `Number`: finite, or one of the two infinities the Number cast accepts.

  Each schema is a function from a document to either the stored record or the validation error.
- **`Quote`** is the loan-quote arithmetic of `POST /api/solicitudes`, over exact reals:
  - the monthly rate `i = tasa / 100 / 12`;
  - the payment `monto · i · (1+i)^n / ((1+i)^n − 1)`;
  - the total, `payment · n`.

  The precondition `Defined` says the denominator is not zero. It excludes a zero rate and a zero term (and, at −2400 %, every even term). The code has no interest-free branch.
- **`Server`** holds the request handlers that change state. They are methods of a `Store` class, whose fields are one map per collection plus a counter for new identities:
  - submission;
  - approval;
  - rejection;
  - configuration update;
  - user registration, checked against the schema and the unique email.

  `Store.Valid` is kept by every method. It requires:
  - identities below the counter;
  - configuration keyed by `clave`;
  - unique emails;
  - every loan carrying the payment and total the handler computes from its own principal, rate and term;
  - every application referencing a stored loan of the same borrower.
- **`Dashboard`** is the `GET /api/dashboard` summary, written as functions. Lemmas state how each store operation moves the summary.

Inputs the service gets from outside become parameters:

- Times (`new Date()`) are passed in.
- `parseFloat` is a parameter `string -> Option<real>`, where `None` stands for not-a-number.
- The parsed request numbers arrive already parsed.

Three consequences of the code's arithmetic are worth stating, since the model follows them:

- **No zero-rate branch and no input checks.** server.js:237-242 evaluates the formula for every input. There is no interest-free case, and principal, term and rate are never checked. At a zero rate the payment is 0/0, which is not a number; at a zero term the total is an infinite payment times zero, again not a number. Mongoose's Number cast refuses such a value, so the loan is not saved (`Server.SubmittedLoan`, `Server.UndefinedQuote`). A negative principal or rate is priced like any other.
- **Rates at or below −1200 %.** There `1 + i` is zero or negative, and `(1+i)^n = 1` can hold at a non-zero rate and term: at −2400 %, i = −2 and every even term gives a zero denominator; with a non-zero principal the numerator is non-zero. The payment and the total are then infinities, which the cast accepts, so the loan is saved with them (`Server.InfiniteAtMinus2400`, `Server.SubmittedAtMinus2400`). For that reason `Quote.DefinedIff` and `Server.RefusedAboveMinus1200` are stated for rates above −1200 % only.
- **Figures at the seeded 18 %.** 10 000 over 12 months gives a payment of 916.7999… and a total of 11 001.599… (`Quote.TwelveMonthsAt18`); 50 000 over 24 months gives 2 496.2051… and 59 908.922… (`Quote.TwentyFourMonthsAt18`).

## Model

| member | source | states |
|---|---|---|
| Quote.Compute | server.js:239-242 | the quote at monthly rate tasa/100/12 over a term of `plazo` months; the total is the monthly payment times the term |
| Quote.PowOfOne | server.js:240-241 | `Math.pow` on a whole exponent: one to any power is one, which is why a zero rate leaves the denominator at zero |
| Quote.PowPositive | server.js:240-241 | `Math.pow` on a whole exponent: a positive base has a positive power |
| Quote.PowAdd | server.js:240-241 | `Math.pow` on whole exponents: x^(a+b) = x^a · x^b |
| Quote.DefinedIff | server.js:240-241 | for rates above −1200 %, the denominator (1+i)^n − 1 is non-zero exactly when the rate is non-zero and the term is at least one month |
| Quote.ZeroRateUndefined | server.js:239-241 | at a zero rate the denominator is zero for every term: there is no interest-free quote |
| Quote.DefinedNonZeroRate | server.js:239-241 | a defined quote has a non-zero monthly rate and a term of at least one month |
| Quote.PaymentEquation | server.js:240-241 | the payment times ((1+i)^n − 1) equals principal · i · (1+i)^n |
| Quote.BalanceClosedForm | server.js:240-241 | the balance after k monthly payments (interest added, payment deducted) times i equals monto·i·(1+i)^k − pago·((1+i)^k − 1), the closed form of the balance |
| Quote.Amortizes | server.js:240-241 | a payment pays the loan off to exactly zero after `plazo` months if and only if it is the quoted payment |
| Quote.PaymentGeometric | server.js:240-241 | the payment times the sum of (1+i)^j for j < n equals the principal grown for n months |
| Quote.OneMonth | server.js:239-242 | over one month at a non-zero rate the quote is defined, the payment is monto·(1+i) and the total equals the payment |
| Quote.PositiveRate | server.js:239-242 | for positive principal and rate and a term of at least one month, the quote is defined, the payment is positive and the total is at least the principal |
| Quote.PaymentIncreasesWithRate | server.js:239-241 | for a positive principal, a higher rate (above −1200 %) gives a strictly higher payment over the same term |
| Quote.TwelveMonthsAt18 | server.js:239-242 | 10 000 at 18 % over 12 months: payment in (916.79, 916.81), total in (11001.59, 11001.61) |
| Quote.TwentyFourMonthsAt18 | server.js:239-242 | 50 000 at 18 % over 24 months: payment in (2496.20, 2496.21), total in (59908.92, 59908.93) |
| Models.ParseRol | models.js:16 | a role parsed from text has that text as its stored name |
| Models.RolNames | models.js:16 | the two roles and their names `cliente`/`administrador` correspond one to one |
| Models.ParseEstadoPrestamo | models.js:30-34 | a loan state parsed from text has that text as its stored name |
| Models.EstadoPrestamoNames | models.js:30-34 | the four loan states and their names `pendiente`, `aprobado`, `rechazado`, `liquidado` correspond one to one |
| Models.ParseEstadoInversion | models.js:71-75 | an investment state parsed from text has that text as its stored name |
| Models.EstadoInversionNames | models.js:71-75 | the three investment states and their names `activa`, `vencida`, `cancelada` correspond one to one |
| Models.NewUsuario | models.js:4-19 | a user is accepted exactly when `nombre`, `email` and `password` are non-empty and `rol` is absent or a role name; `nombre`, `email`, `password` and the eight optional fields are stored as sent; `rol` defaults to `cliente`, `activo` to true, `fecha_registro` to now; both timestamps are now |
| Models.NewPrestamo | models.js:22-40 | a loan is accepted exactly when its seven required fields are present (`destino` non-empty) and `estado` is absent or a state name; `estado` defaults to `pendiente`; `fecha_solicitud` is now; the approval and rejection fields start absent |
| Models.NewSolicitud | models.js:43-51 | an application is accepted exactly when `prestamo_id` and `usuario_id` are present; the other fields are copied; `fecha_envio` is now |
| Models.NewConfiguracion | models.js:54-59 | an entry is accepted exactly when `clave` and `valor` are non-empty; both and `descripcion` are stored as sent; `fecha_actualizacion` is kept when supplied and defaults to now; both timestamps are now |
| Models.NewInversion | models.js:62-76 | an investment is accepted exactly when its seven required fields are present and `estado` is absent or a state name; all seven are stored as sent; `estado` defaults to `activa`, `fecha_inicio` to now; both timestamps are now |
| Models.NewPromocion | models.js:79-87 | a promotion is accepted exactly when `titulo` and `descripcion` are non-empty and both dates are present; these and `descuento_tasa` are stored as sent; `activo` defaults to true and `fecha_creacion` to now; both timestamps are now |
| Server.ResolveTasa | server.js:234-235 | when the configuration holds `tasa_<text>_meses`, the rate is its parsed value; otherwise it is exactly 18 |
| Server.RateKeyInjective | server.js:234 | two spellings of the term give the same key if and only if they are the same text |
| Server.RateDependsOnItsKeyOnly | server.js:234-235 | configurations that agree on the term's own entry give the same rate |
| Server.SpellingSelectsEntry | server.js:234-238 | the key uses the raw text, not `parseInt(plazo)`: with only `tasa_12_meses` configured, "12" uses that entry while "012" falls back to 18 |
| Server.EvaluateQuote | server.js:237-242 | where the denominator is not zero, the stored payment is the finite quote and the total is the payment times the term |
| Server.UndefinedQuote | server.js:239-242 | where the denominator is zero, the total is not a number exactly when the principal, the rate or the term is zero; otherwise payment and total are the same infinity, negative exactly when `monto · i` is |
| Server.RefusedAboveMinus1200 | server.js:239-242 | for rates above −1200 %, the total is not a number exactly when the rate or the term is zero, and is otherwise the finite quote |
| Server.InfiniteAtMinus2400 | server.js:239-242 | at −2400 % every even term gives a zero denominator; a non-zero principal then gets an infinite payment and total, negative for a positive principal |
| Server.SubmittedLoan | server.js:237-255 | the loan is refused exactly when the principal or the rate is not a number, the total is not a number (reported on `monto_total`), or the borrower or the purpose is missing; otherwise it is pending, with the request's principal, term, borrower and purpose, the resolved rate, and the computed payment and total; its approval and rejection fields are absent, and its request and creation times are now |
| Server.SubmittedAtMinus2400 | server.js:234-255 | with `tasa_12_meses` at −2400, 1000 over 12 months is saved, with a payment and a total of minus infinity |
| Server.SubmittedApplication | server.js:258-265 | after the loan is accepted and both coordinates are numbers, the application is accepted; it references the new loan and the same borrower, with coordinates, documents and signature copied |
| Server.Approved | server.js:163-170 | from any prior state, approval sets `aprobado`, the approval time and the approver (`Administrador` when none is given); it keeps the loan terms and the rejection fields |
| Server.Rejected | server.js:186-193 | from any prior state, rejection sets `rechazado`, the rejection time and the reason (`No especificado` when none is given); it keeps the loan terms and the approval fields |
| Server.RejectAfterApprove | server.js:161-205 | with no check of the prior state, rejecting an approved loan succeeds, and the loan keeps its approver and approval time beside its rejection |
| Server.TransitionsKeepQuote | server.js:164-195 | approval and rejection keep the stored payment and total equal to what the handler computes from the loan's own terms |
| Server.Updated | server.js:291-294 | the updated entry has the new value and the update time; its key, description and creation time are kept |
| Server.UpdateChangesOneRate | server.js:291-294 | updating an entry changes the rate of the term named by its key to the parsed new value; every other term keeps its rate |
| Server.Store.CreateUsuario | server.js:118-126 | a user is stored under a new identity exactly when the schema accepts it and its email is not registered; a schema failure or a duplicate email stores nothing; the other collections do not change |
| Server.Store.Submit | server.js:220-275 | `Valid` is kept. The submission succeeds exactly when the loan is accepted and both coordinates are numbers. A refused loan stores nothing. An accepted loan is stored under the next identity. Bad coordinates then fail the request with that loan still stored. On success the application is stored under the identity after it, referencing the loan. Users and configuration do not change |
| Server.Store.Approve | server.js:161-182 | `Valid` is kept; an unknown identity is not found and changes nothing; otherwise only that loan changes, to its approved form, which is returned |
| Server.Store.Reject | server.js:184-205 | `Valid` is kept; an unknown identity is not found and changes nothing; otherwise only that loan changes, to its rejected form, which is returned |
| Server.Store.UpdateConfig | server.js:288-305 | `Valid` is kept; an absent key is not found and creates no entry; otherwise only that entry's value and update times change, and the entry is returned |
| Dashboard.FindPrestamos | server.js:315 | the scan below bound n returns only loans in the requested state, returns every loan stored below n in that state, and at most n of them |
| Dashboard.FindMultiplicity | server.js:315-316 | each loan value occurs in the scan exactly as many times as identities below the bound hold it in the requested state, so equal records stored twice are both summed |
| Dashboard.FindMatchesCount | server.js:312-315 | when every identity is below the scan bound, the scan returns exactly as many loans as `countDocuments` counts in that state |
| Dashboard.FindReturnsStored | server.js:315 | every loan the scan returns is stored in the requested state |
| Dashboard.CountUsuarios | server.js:311 | the number of users with a role is at most the number of users, and zero exactly when no user has it |
| Dashboard.CountPrestamos | server.js:312-313 | the number of loans in a state is at most the number of loans, and zero exactly when no loan is in it |
| Dashboard.SumMonto | server.js:316 | the sum of principals none of which is negative is not negative |
| Dashboard.SumAppend | server.js:316 | the fold adds each loan's principal to the running sum, starting from 0 |
| Dashboard.Summary | server.js:309-323 | for a store whose identities are all below the scan bound, the client count is at most the number of users, and the pending and approved counts together at most the number of loans |
| Dashboard.SummaryWellFormed | server.js:311-323 | the approved count equals the number of loans summed, and the total is non-negative when approved principals are |
| Dashboard.SummaryIndependentOfBound | server.js:315-316 | the summary is the same for every scan bound beyond all identities in use |
| Dashboard.SumAfterReplace | server.js:316 | replacing a stored loan by one with the same principal moves the sum by that principal for leaving and for entering the state summed |
| Dashboard.CountAfterReplace | server.js:312-313 | replacing a stored loan moves each state's count by one for leaving and for entering it |
| Dashboard.CountAfterInsert | server.js:312-313 | inserting a loan under a new identity adds one to the count of its state only |
| Dashboard.AfterApprove | server.js:311-316 | approval adds a loan to the approved count and its principal to the total unless it was approved already, removes it from the pending count if it was pending, and leaves the client count alone |
| Dashboard.AfterReject | server.js:311-316 | rejection removes a loan from whichever count it was in, and its principal from the total if it was approved |
| Dashboard.AfterSubmit | server.js:311-316 | storing a new pending loan under the next identity adds one to the pending count and changes nothing else |
| Dashboard.AfterCreateUsuario | server.js:311 | registering a user adds one to the client count exactly when the user is a client |

## Left out

- Floating point is not modelled. All arithmetic is over exact reals: IEEE-754 rounding, `Math.pow` on doubles and overflow to infinity are absent. The only non-finite values kept are those exact arithmetic predicts at a zero denominator: not a number (a refused save) and the two infinities (a stored `Infinite` payment and total). Signed zeros are not distinguished.
- Text parsing is not modelled. `parseFloat` is a parameter, and the request's numbers arrive parsed. A principal, rate or coordinate that parses as an infinity (`parseFloat("Infinity")`) is outside the model, which gives those fields finite values.
- Server.SolicitudRequest takes the term as a natural number. A `parseInt` result that is negative or not a number is outside the model, because `Pow` is defined for natural exponents only.
- Mongoose reports every failing path of a document together. The model reports one error, the first in its own check order. The methods promise which calls fail but treat the error message as incidental.
- Identities are natural numbers drawn from a counter. ObjectId generation is not modelled. Neither is the cast error for an identity that is not a valid ObjectId.
- A missing `aprobado_por` or `motivo_rechazo` is modelled as the empty string, which is falsy like `undefined`. The values `null` and `0` are not modelled separately.
- Store.UpdateConfig takes `valor` as a string. An absent `valor` in the request body is not modelled.
- HTTP is not modelled: Express routing, CORS, the JSON size limit, status codes, the health check and server start-up are transport only.
- The MongoDB connection, the `populate` joins on listings and the `select('-password')` projection are database-library behaviour.
- The listing endpoints (`GET` for users, loans, applications, configuration and promotions) are left out. They change nothing in the store. What they return is filtered or projected: clients only and without passwords for users, active promotions only.
- Start-up seeding is left out. It inserts fixed configuration entries and users, and only into empty collections.
- Store.Valid: its invariants hold for the endpoints modelled here, not for the whole program. `POST /api/prestamos` (server.js:151-159) stores any `pago_mensual` and `monto_total` the body carries, which breaks "every loan carries the payment and total computed from its terms". `PUT /api/usuarios/:id` (server.js:128-138) updates without the schema's validators, so it can blank `nombre` and break `ValidUsuario`. Store.Approve and Store.Reject are stated on stores that meet `Valid`, but neither relies on its quote or user parts; the Dashboard lemmas need only identities below the scan bound.
- The pass-through endpoints are left out: `POST /api/prestamos`, `PUT /api/usuarios/:id` and `POST /api/promociones`. They copy the request body into a record. `POST /api/usuarios` is modelled, as Store.CreateUsuario.
- Store.Submit makes its two writes one after the other. Neither a crash between them nor concurrent requests is modelled. The one partial outcome modelled is the code's own: a loan stored without its application when a coordinate is not a number.
- Inversion and Promocion appear only as schemas. No handler stores investments.
