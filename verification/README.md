# rust-arity-scan, modelled in Dafny

`rust-arity-scan` walks a directory of Rust sources. It parses each `.rs` file with tree-sitter and queries it for function
items and function signature items. For each one it counts the declared parameters, leaving out the `self`
receiver. Every declaration whose arity is strictly greater than a threshold `min_args` is collected as an `FnInfo`
(relative path, name, arity, 1-based line) in a `BinaryHeap`. The tool then prints the collected records and a
summary line with the total.

This project models the tool's own logic, all of it in `src/main.rs`:

- `counting.dfy`, module `ParameterCounting`: `count_parameters`. `ParameterCount` is a recursive
  specification over the kinds of a parameter list's children. `CountParameters` is the source's loop, proved
  against it. Lemmas relate the count to the multiplicity of `"parameter"`, bound it, and show that receivers and
  other kinds add nothing wherever they occur.
- `fninfo.dfy`, module `FunctionRecord`: the `FnInfo` record.
  - `Cmp` and `PartialCmp` model its `Ord` and `PartialOrd`.
  - `Display` models its report line `"<path>:<line>: fn <name>/<arity>"`, with decimal rendering and
    round-trip lemmas that read the arity and line back out of a printed line.
  - `TotalCmp` is an ordering consistent with equality (see Findings).
- `scanner.dfy`, module `Scanner`: the body of `process_file` and the driver loop of `main`.
  - `Bucket` is the heap the records are pushed into.
  - `ProcessFile` is the `while let` loop over matches. `Run` is `main`'s loop over files, summing
    `total_files`.
  - Both are proved against the specification functions `Retained`, `FileRecords`, `RecordsBefore` and
    `CountBefore`. Lemmas state soundness (threshold, line ≥ 1, relative path), completeness, skipping, and
    count = number of records.
- `paths.dfy`, module `Paths`: paths as sequences of components. This matches `Path::strip_prefix`, which works
  component by component, and `display`, which joins components with `/`.
- `wrappers.dfy`, module `Wrappers`: `Option` and `Result`.

Tree-sitter is not modelled. A file is given as what the query yields for it: a sequence of `Match` values. Each
holds an optional name capture (the identifier text) and an optional parameter-list capture (its children's kinds
and its 0-based start row). A file whose `fs::read_to_string` fails is `Unreadable`. The directory walk is also
not modelled: `Run` receives the files it would yield, in order, and requires them all to lie under the scanned
directory.

Three behaviours of the code that are easy to misread:

- The report is not sorted. `for el in bucket` consumes the `BinaryHeap` in arbitrary order, so the model only
  states what the output holds, as a multiset (`Report.records`). It makes no claim about order.
- An unreadable `.rs` file is not skipped. The `?` on `read_to_string` ends the whole run with an error
  (`Run` returns `Err` for the first unreadable file). Only entries the directory walk itself cannot read are
  skipped.
- Every `self_parameter` child is excluded, not only a first one. Only children of kind exactly `parameter`
  count; for instance a `variadic_parameter` child adds nothing.

## Model

| member | source | states |
|---|---|---|
| `ParameterCounting.CountParameters` | src/main.rs:157-172 | the loop over the children returns exactly `ParameterCount` of their kinds, skipping `self_parameter` and adding one per `parameter` |
| `ParameterCounting.ParameterCountIsMultiplicity` | src/main.rs:162-169 | the arity equals the number of children whose kind is exactly `"parameter"` (its multiplicity in the multiset of kinds) |
| `ParameterCounting.ParameterCountBounded` | src/main.rs:162-169 | the arity never exceeds the number of children, and equals it exactly when every child is a `parameter` |
| `ParameterCounting.ParameterCountAppend` | src/main.rs:162-169 | counting is additive over concatenated child lists: each child is judged on its own kind |
| `ParameterCounting.ParameterCountInsert` | src/main.rs:162-169 | inserting one child anywhere adds 1 if its kind is `parameter` and 0 for any other kind (punctuation, receiver, anything else) |
| `ParameterCounting.SelfParameterIgnored` | src/main.rs:163-165 | inserting or removing a `self_parameter` child anywhere leaves the arity unchanged |
| `FunctionRecord.CmpByArity` | src/main.rs:89-93 | `cmp` returns Equal iff the arities are equal, Less iff the left arity is smaller, Greater iff larger |
| `FunctionRecord.PartialCmpAgrees` | src/main.rs:84-88 | `partial_cmp` always returns `Some` of the same ordering as `cmp` |
| `FunctionRecord.CmpIsTotalPreorder` | src/main.rs:89-93 | `cmp` is reflexive, reverses when its arguments are swapped, and is transitive |
| `FunctionRecord.CmpEqualWithoutEquality` | src/main.rs:76-93 | there are two records that `cmp` calls Equal although the derived equality calls them different |
| `FunctionRecord.TotalCmpConsistent` | src/main.rs:76-93 | the corrected ordering is a total order: Equal exactly on equal records, antisymmetric, transitive (both strictly and in its non-Greater form), and agrees with `cmp` whenever the arities differ |
| `FunctionRecord.DecimalRoundTrip` | src/main.rs:97-104 | the decimal rendering of a `usize` field is a non-empty run of digits that parses back to the number |
| `FunctionRecord.DisplayArityRoundTrip` | src/main.rs:95-105 | the digits after the last `/` of a report line read back as the record's arity, for any path and name |
| `FunctionRecord.DisplayLineRoundTrip` | src/main.rs:95-105 | when no path component contains `:`, the digits between the first two `:` of a report line read back as the record's line |
| `Paths.StripPrefix` | src/main.rs:140 | stripping succeeds exactly when `base` is a component-wise prefix of the path, and then `base` followed by the result is the path |
| `Paths.DisplayAvoids` | src/main.rs:100 | displaying a path introduces no character other than the `/` separators |
| `Scanner.Bucket.constructor` | src/main.rs:47 | a new bucket is empty |
| `Scanner.Bucket.Push` | src/main.rs:143-148 | a push adds exactly the one record and keeps everything already in the bucket |
| `Scanner.ProcessFile` | src/main.rs:108-155 | an unreadable file gives an error and pushes nothing; otherwise the bucket is its old contents followed by the file's records, and the returned count equals the number of records pushed |
| `Scanner.RetainedAppend` | src/main.rs:129-152 | matches are processed independently: the records of two match lists together are the records of each, in order |
| `Scanner.RetainedSkips` | src/main.rs:130-141 | a match missing the name or the params capture, or whose arity is at most `min_args` (equal included), adds no record wherever it sits |
| `Scanner.RetainedSound` | src/main.rs:134-150 | every pushed record has arity > `min_args`, line ≥ 1, the stripped path, and is the record of one complete match (name, counted arity, start row + 1); there are no more records than matches |
| `Scanner.RetainedComplete` | src/main.rs:134-150 | every complete match whose arity exceeds `min_args` has its record pushed (no false negatives) |
| `Scanner.FileRecordsRelative` | src/main.rs:140-142 | every record of a file names it relative to the scanned directory (`base` + relative path = file path) |
| `Scanner.CountIsRecords` | src/main.rs:56-64 | the summed per-file counts equal the number of records collected |
| `Scanner.RecordsBeforeExact` | src/main.rs:49-65 | the collected records are exactly the union of every scanned file's records |
| `Scanner.RecordsBeforeSound` | src/main.rs:49-65 | every collected record exceeds the threshold, has line ≥ 1, and names one of the scanned files relative to the directory |
| `Scanner.Run` | src/main.rs:45-73 | the run succeeds iff every file is readable; it then reports exactly the records of all files, `total_files` is the sum of the per-file counts and equals the number of records, and every record exceeds the threshold; otherwise it fails with the first unreadable file |

## Findings

| source | as written | input that shows it | evidently intended | confidence | as-written member | corrected member |
|---|---|---|---|---|---|---|
| src/main.rs:76-93 | `Ord`/`PartialOrd` compare the arity alone, while the derived `PartialEq`/`Eq` compare all four fields; Rust's `Ord` contract asks that `cmp` return Equal exactly when `==` holds | `FnInfo { path: "lib.rs", name: "foo", arity: 3, line: 1 }` and `FnInfo { path: "lib.rs", name: "bar", arity: 3, line: 7 }`: `cmp` gives Equal, `==` gives false | an ordering by arity that separates distinct records, e.g. arity then line, name and path | medium, not executed; `BinaryHeap` compares only through the ordering, never through `==`, so the tool's output is unaffected | `FunctionRecord.CmpEqualWithoutEquality` | `FunctionRecord.TotalCmpConsistent` |

The rest of the model depends on no ordering at all: the bucket's contents leave it as a multiset. So the
corrected ordering changes nothing else in the model.

## Left out

- Command-line parsing (`parse_args`): `env::args`, the usage message, `process::exit`, and the panic on a
  non-numeric threshold. The threshold is a `nat` parameter.
- The directory walk: `WalkDir`, `follow_links`, skipping entries that fail, and the `.rs` extension filter.
  `Run` takes the walk's output as a sequence of files.
- Tree-sitter: `Parser::set_language`, `Query::new`, `Parser::parse`, `QueryCursor::matches`,
  `capture_index_for_name(..).unwrap_or(0)`, and slicing the source text for the name. A file is given directly
  as its matches, so the parse-failure panic (`.expect`) cannot arise in the model. The errors of
  `set_language` and `Query::new` are not modelled.
- Scanner.ProcessFile: requires `base` to be a prefix of the file path outright, standing in for the
  `strip_prefix(..).unwrap()` panic. The source reaches that call only for complete matches. Every path the walk
  yields lies under the directory, so the driver always meets the requirement.
- Output: the `println!` of each record and of the summary line, and the `BinaryHeap`'s internal layout and
  iteration order. `Bucket` keeps the sequence of pushes; what it yields is read only as a multiset.
- Scanner.Run: the error value is abstracted to the path of the failing file (`ReadFailed(path)`). The source's `?`
  propagates the bare `io::Error` of `read_to_string`, which does not name the file. What the model states is
  where the run stops, not what it reports.
- Integer width: `arity`, `line`, the per-file `count` and `total_files` are `usize` in the source and unbounded
  here. The `row + 1` and counter increments cannot wrap in the model.
- Path details beyond components: non-UTF-8 names, redundant separators, `.` components, and platform separators
  in `display()`.
