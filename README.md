# Curator password generator — configuration model

Curator is a command-line password generator. Its generator module holds a
`Curator` object with three optional character pools — lower case letters,
upper case letters and special characters — and an OS random source. A new
`Curator` has every pool absent; `enable_lc`, `enable_uc` and `enable_spec`
each overwrite one pool with the characters of a fixed string, which the
helper `to_char` turns into a vector one character at a time.

This project, `generator.dfy` (module `Generator`), models that module:

- `Curator` is a class with the three fields `lc`, `uc`, `spec` of type
  `Option<seq<char>>`; its enable methods assign one field in place.
  `State()` reads the three fields as a `Pools` value.
- `Enable(p, c)` is the same update on a `Pools` value for a class `c`, and
  `EnableAll` applies a sequence of enable operations. Each enable method is
  proved to produce `Enable(old(State()), c)`. Idempotence, commutation and
  order independence are proved as lemmas about `Enable` and `EnableAll`.
- `ToChar` is the loop of `to_char`, proved to return exactly the characters
  of its input, in order.
- A Rust `&str` iterated with `char_indices` yields Unicode scalar values.
  A Dafny `string` is a sequence of Unicode scalar values, so one element of
  `seq<char>` is one Rust `char`.

The tests in `tests/curator_tests.rs` also call `enable_integer` (a digits
pool) and `gen_pwd` (password generation). The generator module defines
neither of them. The model follows the module's code, so it has three pools
and no generation.

## Model

| member | source | states |
|---|---|---|
| `Generator.PoolConstants` | src/generator/mod.rs:27-32 | `LC` and `UC` have 26 characters each and `SPEC` has 19; the escaped `\\` in `SPEC` is a single backslash, found at exactly one position |
| `Generator.ToChar` | src/generator/mod.rs:90-97 | the result has the same length as the input, and element i is the input's i-th character, so order and duplicates are kept |
| `Generator.ToCharHello` | src/generator/mod.rs:84-89 | the documented example: `"hello!"` becomes `['h','e','l','l','o','!']`, with both `'l'`s kept |
| `Generator.Curator.constructor` | src/generator/mod.rs:43-53 | the successful path of `new`: `lc`, `uc` and `spec` are all absent |
| `Generator.Curator.New` | src/generator/mod.rs:43-54 | `new` returns `Ok` exactly when the random source can be acquired, and an error otherwise; on success it returns a fresh `Curator` with every pool absent |
| `Generator.InitialEmpty` | src/generator/mod.rs:48-53 | the initial state is well formed, has no enabled class and no available character |
| `Generator.Enable` | src/generator/mod.rs:60-81 | enabling class c sets c's pool to `Some` of that class's fixed string and leaves every other pool unchanged |
| `Generator.Curator.EnableLc` | src/generator/mod.rs:60-63 | `lc` becomes `Some` of the 26 characters of `LC` (line 28) in order; `uc` and `spec` are unchanged; the new state is `Enable(old state, Lower)` |
| `Generator.Curator.EnableUc` | src/generator/mod.rs:69-72 | `uc` becomes `Some` of the 26 characters of `UC` (line 30) in order; `lc` and `spec` are unchanged; the new state is `Enable(old state, Upper)` |
| `Generator.Curator.EnableSpec` | src/generator/mod.rs:78-81 | `spec` becomes `Some` of the 19 characters of `SPEC` (line 32) in order; `lc` and `uc` are unchanged; the new state is `Enable(old state, Special)` |
| `Generator.EnablePreservesWellFormed` | src/generator/mod.rs:60-81 | after any enable, every present pool still holds exactly its class's characters |
| `Generator.EnableIdempotent` | src/generator/mod.rs:60-81 | enabling a class twice gives the same state as enabling it once |
| `Generator.EnableCommutes` | src/generator/mod.rs:60-81 | enabling two classes in either order gives the same state |
| `Generator.EnableGrows` | src/generator/mod.rs:56-81 | enabling adds exactly that class to the enabled classes; in a well-formed state no available character is lost |
| `Generator.EnableAllPool` | src/generator/mod.rs:60-81 | after a sequence of enables, a class's pool is its fixed string if the class occurred in the sequence, and its earlier value otherwise |
| `Generator.EnableAllOrderIndependent` | src/generator/mod.rs:60-81 | two enable sequences over the same set of classes, in any order and with any repetitions, give the same state and the same available characters |
| `Generator.EnableAllFromInitial` | src/generator/mod.rs:46-81 | starting from a new `Curator`, a sequence of enables yields a well-formed state whose enabled classes are exactly the classes in the sequence |

## Left out

- The OS random source (`os::OsRng`, the `random` field) is foreign OS-entropy code. The field is omitted. Whether `OsRng::new()` succeeds is a parameter of `Curator.New`, and the `io::Error` it would carry is a single error value.
- The `&Self` that each enable method returns for chaining is not modelled. The methods return nothing, and a chain is a sequence of calls.
- Password generation (`gen_pwd`) and the digits pool (`enable_integer`) are called by the tests but do not exist in the generator module, so they are not modelled.
- Command-line parsing, help text, the license display subcommand and the "no flags" warning in `src/main.rs` are CLI and I/O glue. They are not part of this model.
