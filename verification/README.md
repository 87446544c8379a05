# near-notes record stores, modelled in Dafny

The near-notes repository holds two NEAR smart contracts, `Categories` and `Tasks`. Each one keeps a
per-account, append-only list of records in a `LookupMap<account, Vector<record>>`. This project
models that store as an immutable `map<string, seq<R>>` and the contract methods as pure functions
over it. It then proves what the methods do to the map.

- `panics.dfy` (`Panics`): a call outcome, `Ok(value)` or `Panic(message)`. A NEAR call that
  panics reverts all of its writes, so a panic result carries no state.
- `lazy_store.dfy` (`LazyStore`): the generic store shared by both contracts. It reads a
  collection (absent means empty), creates a missing collection, pushes onto an existing one,
  appends (create, then push) and removes a whole collection. Every change is proved to touch
  only one owner's entry.
- `clock.dfy` (`Clock`): the clock reading as a duration since the Unix epoch, and the
  millisecond timestamp `secs * 1000 + nanos / 1_000_000` in checked u64 arithmetic.
- `categories.dfy` (`CategoriesContract`): `Default`, `new`, `reset`, `get_categories` and
  `add_category`. A category's id is the list length before the push, plus one.
- `tasks.dfy` (`TasksContract`): `Default`, `get_tasks`, `generate_task_fields` and `add_task`.
  A task's id is a random token and its timestamp comes from the clock.

`add_category` and `add_task` handle a missing entry by storing an empty vector and calling
themselves again. This is modelled twice. The functions `AddCategory` and `AddTask` are the
ensure-then-append form. The methods `AddCategoryRetrying` and `AddTaskRetrying` follow the
literal self-call. Their termination measure is whether the owner is present, and they report
the number of retries, which is proved to be at most one. Each method is proved to give the
same result as its function.

Inputs from the environment become parameters:
- the signer (`env::signer_account_id()`) is an explicit owner argument;
- `env::state_exists()` is a boolean argument of `New`;
- `SystemTime::now()` is a `SystemTime(secs, nanos)` value;
- `Uuid::new_v4().to_string()` is a token string in `TaskRequest`.

Notes on the code:
- A new owner's list starts empty in both contracts; no default category is seeded.
- `get_tasks` inserts nothing for a missing user, although the comment at
  contracts/tasks/src/lib.rs:42-43 says it does. The model's `GetTasks` returns a sequence and no
  new state.
- Category ids start at 1 (`len() + 1`).
- On a new owner, `add_*` pushes onto an empty collection, so the result has one record.
- The `Tasks` contract has a panicking `Default` but no `#[init]` constructor. The model
  therefore starts tasks from an arbitrary given state.

## Model

| member | source | states |
|---|---|---|
| LazyStore.Ensure | contracts/categories/src/lib.rs:76-79 | after get-or-create the owner has an entry holding its old records (none if absent); the key set gains only that owner; a present owner leaves the map as it was; no other owner changes |
| LazyStore.Push | contracts/categories/src/lib.rs:67-75 | pushing onto an existing entry keeps the key set, grows that entry by one, keeps its prefix, puts the record last, and touches no other owner |
| LazyStore.Append | contracts/categories/src/lib.rs:61-83 | create-then-push on any owner: the owner's list afterwards is the old list (empty if absent) with the record appended; only that owner's entry changes |
| LazyStore.Remove | contracts/categories/src/lib.rs:45-47 | removal leaves the owner without an entry, so reading it gives the empty list; an absent owner leaves the map unchanged; other owners keep their entries |
| LazyStore.OtherOwnerUnaffected | contracts/categories/src/lib.rs:49-58 | after a change confined to one owner, any other owner reads exactly the same list as before |
| Clock.SinceEpoch | contracts/tasks/src/lib.rs:52-54 | the duration since the epoch succeeds exactly when the clock is not before the epoch; it then equals the reading in nanoseconds; otherwise the call panics with a message that starts with "Time went backwards: " |
| Clock.Millis | contracts/tasks/src/lib.rs:61-63 | the timestamp exists exactly when secs*1000 + nanos/10^6 fits in a u64; dividing it by 1000 gives back the seconds and its remainder is the millisecond part; otherwise it is an overflow panic |
| CategoriesContract.Default | contracts/categories/src/lib.rs:25-29 | `Default` always panics with the not-initialized message |
| CategoriesContract.New | contracts/categories/src/lib.rs:36-41 | `new` succeeds exactly when no state exists, and then the store is the empty map, so every account reads an empty list; otherwise it panics with "Already initialized" |
| CategoriesContract.GetCategories | contracts/categories/src/lib.rs:49-58 | an account without an entry reads the empty list; one with an entry reads its stored list unchanged, in insertion order |
| CategoriesContract.Reset | contracts/categories/src/lib.rs:44-47 | after reset the signer has no entry and reads the empty list; other accounts are untouched; reset of an absent signer changes nothing |
| CategoriesContract.AddCategory | contracts/categories/src/lib.rs:61-84 | the signer's list becomes its old list (empty if absent) with one category appended, whose id is the old length + 1 and whose title and color are the given ones; other accounts are untouched |
| CategoriesContract.AddCategoryRetrying | contracts/categories/src/lib.rs:61-84 | the literal self-call form terminates with the ensure-then-append result, after no retry for a present signer and exactly one retry for an absent one |
| CategoriesContract.FirstCategoryIsOne | contracts/categories/src/lib.rs:76-82 | the first addition for an absent signer yields a one-element list whose category has id 1 |
| CategoriesContract.ResetRestartsNumbering | contracts/categories/src/lib.rs:44-84 | after a reset, the next addition yields a one-element list numbered 1 |
| CategoriesContract.AddPreservesSequentialIds | contracts/categories/src/lib.rs:69-73 | if a list is numbered 1..n, adding a category keeps it numbered 1..n+1 |
| CategoriesContract.NumberedContents | contracts/categories/src/lib.rs:69-73 | the categories a run of additions pushes onto a list of length `start` are one per draft, the k-th carrying the k-th draft's title and color and id start + k + 1 |
| CategoriesContract.AddAllAppends | contracts/categories/src/lib.rs:67-75 | after any run of additions the signer's list is exactly the old list followed by the pushed categories, in call order |
| CategoriesContract.AddAllOnlySigner | contracts/categories/src/lib.rs:61-84 | a run of additions by one signer leaves every other account's entry as it was |
| CategoriesContract.NumberedOnEmpty | contracts/categories/src/lib.rs:69-73 | categories pushed onto an empty list are numbered 1..n in order, and their ids are pairwise distinct |
| CategoriesContract.FreshListNumbered | contracts/categories/src/lib.rs:69-82 | a list built only by additions from no entry has one category per call, ids 1..n in order, the titles and colors given, and pairwise distinct ids |
| TasksContract.Default | contracts/tasks/src/lib.rs:29-33 | `Default` always panics with the not-initialized message |
| TasksContract.GetTasks | contracts/tasks/src/lib.rs:37-48 | a user without an entry reads the empty list and no entry is created; a user with an entry reads the stored list unchanged, in order |
| TasksContract.GenerateTaskFields | contracts/tasks/src/lib.rs:51-65 | panics with a message starting "Time went backwards: " before the epoch; succeeds exactly when the clock is at or after the epoch and the millisecond count fits in u64; the task then has the token as id, the given text and category id, and a timestamp that splits back into the reading's seconds and milliseconds |
| TasksContract.AddTask | contracts/tasks/src/lib.rs:67-84 | succeeds exactly when field generation succeeds, and panics with its message otherwise; the user's list is then its old list (empty if absent) with exactly the generated task appended, and no other user changes |
| TasksContract.AddTaskRetrying | contracts/tasks/src/lib.rs:67-84 | the literal self-call form terminates with the ensure-then-append result, after no retry for a present user and exactly one retry for an absent one |
| TasksContract.StoredAsGenerated | contracts/tasks/src/lib.rs:57-76 | the task a later `get_tasks` returns last carries that call's token and the timestamp of that call's clock reading |
| TasksContract.GeneratedContents | contracts/tasks/src/lib.rs:51-65 | a run's tasks can be generated exactly when every request's fields can; then there is one task per request, the k-th being the one generated from the k-th request |
| TasksContract.AddAllAppends | contracts/tasks/src/lib.rs:72-76 | a run of additions succeeds exactly when its tasks can be generated, and the user's list is then exactly the old list followed by those tasks, in call order |
| TasksContract.AddAllOnlyUser | contracts/tasks/src/lib.rs:67-84 | a successful run of additions for one user leaves every other user's entry as it was |

## Left out

- NEAR SDK plumbing is not modelled: `#[near_bindgen]`, the Borsh and serde derivations, the
  storage layout of `LookupMap` and `Vector`, and the host's `env::state_exists`. The store is an
  abstract map of sequences.
- Every owner's `Vector` is created with the same storage prefix `b"t"`
  (contracts/categories/src/lib.rs:78, contracts/tasks/src/lib.rs:78). In real storage the
  collections of different owners would therefore share elements. The abstract map gives each
  owner its own sequence, so this aliasing is outside the model.
- Caller identity, the clock and the UUID generator are inputs, as listed above. No uniqueness
  of tokens is claimed, because a random v4 UUID is unique only with high probability. The
  hyphenated text format of the token is not modelled either.
- Clock.SinceEpoch: the panic message is promised only up to its "Time went backwards: " prefix.
  The debug rendering of the `SystemTimeError` that `expect` appends, with its duration, is not
  modelled.
- TasksContract.GenerateTaskFields: as for `Clock.SinceEpoch`, the pre-epoch panic message is
  promised only up to its "Time went backwards: " prefix.
- The model describes the contracts as the code is meant to behave with these inputs, not
  deployed on NEAR's wasm target. There, `SystemTime::now()` (contracts/tasks/src/lib.rs:52)
  has no clock and panics, and, since `Tasks` has no `#[init]` constructor, every call against a
  fresh account reaches the panicking `Default` (contracts/tasks/src/lib.rs:29-33).
- The `println!` of the duration in `generate_task_fields` is not modelled, since it is output only.
- CategoriesContract.AddCategory: the id is an unbounded `nat`. The u64 overflow of `len() + 1`
  is not modelled, because no vector can reach 2^64 - 1 elements.
- Clock.Millis: an overflow in `secs * 1000 + ...` is modelled as a panic. This assumes checked
  arithmetic, the usual release profile of NEAR contracts. The build profile is not part of this
  model, and with unchecked arithmetic the value would wrap.
- The test modules (contracts/categories/src/testing.rs, contracts/tasks/src/testing.rs) are not
  modelled. They are test scaffolding and call older signatures. Their length assertions are covered
  by `AddCategory`, `AddTask`, `GetCategories` and `GetTasks`.
