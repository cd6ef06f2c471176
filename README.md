# Polymorphic vectors, modelled in Dafny

The repository implements one growable array twice:

- `vector.h` is the C version. A `struct vector` holds three things: a buffer in a union of `int*` and `double*`, an element count `size`, and a type tag (`INT`, `DOUBLE` or `NONE`).
- `main.cpp` is the C++ version. `vector<T>` is a template over any element type.

Both versions grow the buffer with `realloc` to exactly `size + 1` elements on every append. Both return 0 when an append succeeds and 1 when it fails. Both print a delimiter line of 80 dashes, one line per element, the delimiter again and a blank line, and print nothing when the vector is empty.

The Dafny project has five modules:

- `TaggedVector` (`tagged_vector.dfy`) models `vector.h`.
  - The struct's state is the datatype `State`. `Buffer` stands for the union: `Null`, or the `int` or `double` block that is in use.
  - Pure functions give the effect of each operation: `InitState`, `ClearState`, `PushBackState`, `PushAll` and `Printed`. Their contracts hold the source's promises.
  - The class `Vector` has the struct's fields `data`, `size` and `kind`. Its methods change them in place, and each method's contract ties the new state to the matching function.
  - `Print` walks the indices 0..size-1 as the C loop does. It is proved equal to `Printed`.
- `TemplateVector` (`template_vector.dfy`) models `main.cpp`.
  - The class `Vector<T>` has the fields `data` (`nullptr` or a block) and `size`.
  - Positions are offsets from `data`: `Begin()` is 0 and `End()` is `size`.
  - `Print` walks from `Begin()` to `End()` as the range-for loop does.
  - `DemoIntegers` is the `vector<int>` half of `main`.
- `Decimal` (`decimal.dfy`) is the `%d` rendering of an integer and its inverse `Parse`.
- `Output` (`output.dfy`) holds the delimiter, the frame of a non-empty print, and `Text`, which turns printed lines back into the characters written.
- `Allocator` (`allocator.dfy`) models a series of appends. Each reallocation is given to the model as an explicit outcome: `true` when `realloc` succeeds, `false` when it returns null. `Kept` gives the values that end up stored.

Outside effects become parameters:

- The allocator's answer is the `allocOk` argument.
- The `%lg` rendering of a `double` is the `formatDouble` argument.
- The C++ `operator<<` of an element type is the `format` argument.
- The output stream is the sequence of lines that `Print` returns.

## Model

| member | source | states |
|---|---|---|
| `TaggedVector.InitState` | vector.h:85-92 | an initialised vector is well formed, has size 0, a null buffer, no elements and the requested tag |
| `TaggedVector.Vector.Init` | vector.h:85-92 | starting from any state of the struct, the fields become exactly those of `InitState(t)` and the invariant holds |
| `TaggedVector.Vector.DataPtrInit` | vector.h:47-52 | afterwards the union is the null pointer, and no other field is touched |
| `TaggedVector.Vector.DataPtrClear` | vector.h:62-77 | afterwards the union is the null pointer, whatever the tag passed, and no other field is touched |
| `TaggedVector.ClearState` | vector.h:99-104 | after a clear: size 0, null buffer, no elements, the tag kept, and the state is well formed |
| `TaggedVector.Vector.Clear` | vector.h:99-104 | the fields become `ClearState` of the old fields, and the invariant holds afterwards whatever the state before |
| `TaggedVector.ClearIdempotent` | vector.h:99-104 | clearing twice gives the same state as clearing once |
| `TaggedVector.ClearThenPrintAndPush` | vector.h:99-104 | a cleared typed vector prints nothing, and a successful append then stores exactly that one element |
| `TaggedVector.PushBackState` | vector.h:113-136 | status 0 exactly when the tag is `INT` or `DOUBLE` and the allocation succeeds. Then size grows by one and the elements are the old ones in order plus the new one last. Otherwise the status is 1 and the state is unchanged. The tag never changes and well-formedness is kept |
| `TaggedVector.Vector.PushBack` | vector.h:113-136 | the new fields and the returned status are exactly `PushBackState` of the old fields |
| `TaggedVector.PushAll` | vector.h:113-131 | after a run of appends on a typed vector, the elements are the old ones followed by the values whose reallocation succeeded, in push order, and size counts them. On an untyped vector nothing changes |
| `TaggedVector.PushAllFromInit` | vector.h:85-131 | N successful appends from `vector_init` of a typed vector give size N and exactly the pushed values in order |
| `TaggedVector.PushAllUntyped` | vector.h:132-135 | any run of appends on a `NONE` vector leaves it as initialised |
| `TaggedVector.Printed` | vector.h:147-168 | no lines exactly when size is 0 or the tag is `NONE`. Otherwise size + 3 lines: the delimiter, then the line of element k at position k + 1 for every k in index order, then the delimiter and a blank line |
| `TaggedVector.Vector.Print` | vector.h:150-166 | the loop over `i` from 0 to size, branching on the tag per element, writes exactly `Printed` of the current state |
| `TaggedVector.Vector.Declared` | main.c:13 | a declared `struct vector` whose fields have no promised values, before `vector_init` |
| `TaggedVector.ClearThenReuse` | vector.h:85-166 | on a declared and initialised typed vector, after one append and a clear, print writes nothing, the next successful append returns 0, and print then writes exactly four lines with the new element's line second |
| `TaggedVector.PrintedIntsReadBack` | vector.h:154-159 | every body line of an `INT` vector's print parses back to the integer stored at that index |
| `Decimal.NatToString` | vector.h:158 | the digits of a magnitude: non-empty, digits only, with no leading zero except for 0 itself |
| `Decimal.IntToString` | vector.h:158 | the `%d` text of an integer: non-empty, and it starts with '-' exactly for negative numbers |
| `Decimal.ParseIntToString` | vector.h:158 | every integer rendered by `%d` parses back to itself |
| `Decimal.IntToStringParse` | vector.h:158 | every string that parses is exactly the `%d` rendering of its value, so element lines and stored integers determine each other |
| `Output.Delimiter` | vector.h:152 | the delimiter line is 80 characters, all '-' |
| `Output.Framed` | vector.h:152-166 | a non-empty print has body + 3 lines: the delimiter first, the body unchanged in the middle, then the delimiter and an empty line |
| `Output.FramedText` | vector.h:152-166 | the characters of a framed print are the delimiter and a newline, each body line with its newline, then the delimiter and two newlines. These are the three writes of the source |
| `Allocator.Kept` | vector.h:118-122 | a run of appends stores no more values than were pushed, and all of them, in order, when every reallocation succeeds |
| `Allocator.KeptFromPushed` | vector.h:118-122 | every stored value is one of the pushed values, each at most as often as it was pushed, and nothing is stored when every reallocation fails |
| `TemplateVector.Vector.constructor` | main.cpp:13-19 | a new vector is valid, with a null `data`, size 0 and no elements |
| `TemplateVector.Vector.End` | main.cpp:24-35 | `end() - begin() == size`, and the range from `begin()` to `end()` is exactly the stored elements |
| `TemplateVector.Vector.PushBack` | main.cpp:43-50 | returns 0 when the allocation succeeds: size grows by one, with the old elements in order and the new one last. Returns 1 when it fails: `data` and size are unchanged |
| `TemplateVector.Printed` | main.cpp:59-71 | nothing for no elements. Otherwise size + 3 lines: the delimiter, element k's `operator<<` text at position k + 1, the delimiter and a blank line |
| `TemplateVector.Vector.Print` | main.cpp:59-71 | the range-for walk from `begin()` to `end()` writes exactly `Printed` of the stored elements |
| `TemplateVector.DemoIntegers` | main.cpp:78-91 | pushing 0..9 into a fresh `vector<int>` stores the values whose reallocation succeeded, in order. With every allocation succeeding it stores [0, 1, ..., 9] and prints "0" to "9" between the delimiters |
| `TemplateVector.DemoPrintedLines` | main.cpp:83-89 | with every allocation succeeding, the print of [0, ..., 9] has 13 lines whose body is "0", "1", ..., "9" in order |

## Left out

- Actual output is not modelled. This covers `FILE*` and `fprintf`, `std::ostream`, and the defaulting to `stdout` or `std::cout` (vector.h:151, main.cpp:59). Each print returns its lines instead, and `Output.Text` gives the characters those lines stand for. Write errors are ignored by the source, and the model has none.
- The `%lg` rendering of a `double` and the C++ `operator<<` of an element type are not modelled. They are the parameters `formatDouble` and `format`, and `double` values are the abstract type parameter `D`.
- `realloc` and `free` are not modelled, and neither are pointer identity or addresses. The allocator is only a success or failure outcome per append. Positions in the template vector are offsets from `data`.
- `TaggedVector.Vector.DataPtrClear`: the `free` of the block selected by `usedType` has no counterpart. Only the resulting null pointer is stated.
- `TaggedVector.Vector.Init`: calling `vector_init` on a vector that still owns a buffer leaks that buffer in the source. The model drops it, because memory ownership is not modelled.
- The untyped `const void*` argument of `vector_push_back` and its unchecked cast are not modelled. An append takes an `Element` that is already typed. Its precondition `Matches` requires the value's type to agree with the tag, since a mismatch is undefined behaviour in the source.
- The two union members are not modelled separately. `vector_data_ptr_init` and `vector_data_ptr_clear` write both members (vector.h:49-50, vector.h:74-75), and the union is a single `Buffer` value whose `Null` case is the "released" state.
- `size_t` is modelled as an unbounded `nat`. The overflow of `sizeof(T) * (size + 1)` is not modelled, because a `realloc` of that size fails long before.
- C `int` elements are the `Int32` newtype. In the template demo, `vector<int>` holds only 0..9, so it uses `int`.
- `main.c` is not modelled beyond its declaration of a `struct vector` (main.c:13), which `TaggedVector.Vector.Declared` stands for. The file is a demonstration harness.
- The `vector<double>` half of `main` in main.cpp (the values `i / 2.0`) is not modelled, because `double` is abstract here.
- The template vector has no `clear` and no destructor, so its buffer is never released. The model adds no release operation.
- An append to an untyped vector and a failed reallocation both return 1 (vector.h:119, 127, 134), so a caller cannot tell them apart. The model keeps that single status.
