# Bookstore API automation: assertion summary and add-book request builder

This project models the two pieces of the Bookstore API test suite that carry
logic of their own:

- **`AllureReport.AssertionBuilder`** (module `AssertionReport`): an in-memory
  recorder of `(field, expected, actual)` checks. `Add` appends one check to a
  list, storing `"null"` for a null value, and returns the same builder so
  calls chain. `Build` walks the list and appends lines to a string builder:
  the sentinel `No assertions recorded` for an empty list, otherwise the title
  `ASSERTIONS SUMMARY`, a 40-character `=` rule, and per check a blank line,
  `Field: …`, `Expected: …`, `Actual: …`, `Status: …` (the pass label exactly
  when the two strings are equal) and a 40-character `-` rule. The report is
  specified as a list of lines (`ReportLines`) and as text (`Render`, each
  line followed by the line terminator), and `Build`'s loop is proved to
  produce `Render` of the recorded list.
- **`AddBookRequestBuilder`** (module `RequestBuilder`): a fluent builder that
  owns one mutable `AddBookRequest` (a user id and a list of ISBN entries).
  `WithUserId` overwrites the user id, `WithIsbn` and `WithIsbns` replace the
  ISBN collection, each returns the builder itself, and `Build` returns the
  builder's own request object. The request is a class, so the model keeps
  the aliasing: changes made after `Build` are visible through the reference
  it returned.

## Model

| member | source | states |
|---|---|---|
| `AssertionReport.AssertionBuilder.constructor` | Bookstore.Api.Automation/Utils/AllureReport.cs:132 | a new builder has recorded no checks |
| `AssertionReport.AssertionBuilder.Add` | Bookstore.Api.Automation/Utils/AllureReport.cs:134-138 | appends exactly one check at the end: the length grows by one, earlier checks keep their values and order, a null expected or actual value is stored as `"null"`, and the same builder is returned |
| `AssertionReport.AssertionBuilder.Build` | Bookstore.Api.Automation/Utils/AllureReport.cs:140-160 | the loop that appends lines produces exactly `Render` of the recorded checks; it only reads the list, so two calls in a row give the same string |
| `AssertionReport.Status` | Bookstore.Api.Automation/Utils/AllureReport.cs:155 | the status is the pass label exactly when expected equals actual, and the fail label exactly when they differ |
| `AssertionReport.StatusLine` | Bookstore.Api.Automation/Utils/AllureReport.cs:155 | the whole `Status: ` line names the pass label iff the two strings are equal, and the fail label iff they differ |
| `AssertionReport.RenderShape` | Bookstore.Api.Automation/Utils/AllureReport.cs:142-147 | the output is the sentinel `No assertions recorded` if and only if nothing was recorded; otherwise it starts with the title line and the `=` rule line, followed by the blocks |
| `AssertionReport.BlocksLinesAt` | Bookstore.Api.Automation/Utils/AllureReport.cs:149-157 | there are exactly six lines per check, and check k occupies lines 6k to 6k+5 of the blocks, in insertion order |
| `AssertionReport.ReportBlockAt` | Bookstore.Api.Automation/Utils/AllureReport.cs:146-157 | a non-empty report has 2 + 6n lines: the title and `=` rule lines, then check k's block (blank line, `Field: f`, `Expected: e`, `Actual: a`, status line, `-` rule) at lines 2+6k to 2+6k+5 |
| `AssertionReport.StatusLineAt` | Bookstore.Api.Automation/Utils/AllureReport.cs:149-155 | line 2+6k+4 of a non-empty report names the pass label iff check k's expected and actual strings are equal, and the fail label iff they differ |
| `AssertionReport.RenderAppend` | Bookstore.Api.Automation/Utils/AllureReport.cs:134-160 | recording one more check extends a non-empty report by exactly that check's block, and turns the sentinel into header plus that block |
| `AssertionReport.RenderSplit` | Bookstore.Api.Automation/Utils/AllureReport.cs:145-159 | a non-empty report is the header text followed by the blocks' text, and that text is the blocks of the checks before k, the block of check k, then the blocks of the checks after k |
| `AssertionReport.TwoCheckSummary` | Bookstore.Api.Automation/Tests/Bookshelf/AddBookTests.cs:70-74 | two chained `Add` calls accumulate on one list, and two `Build` calls give the same text: the header followed by the two blocks in call order |
| `RequestBuilder.AddBookRequest.constructor` | Bookstore.Api.Automation/Models/Bookshelf/AddBookRequest.cs:3-9 | a new request has user id `""` and an empty ISBN collection |
| `RequestBuilder.ToEntries` | Bookstore.Api.Automation/Tests/Builders/AddBookRequestBuilder.cs:31-33 | the mapped collection has one entry per ISBN, and entry k carries ISBN k |
| `RequestBuilder.IsbnsOfToEntries` | Bookstore.Api.Automation/Tests/Builders/AddBookRequestBuilder.cs:31-33 | reading the ISBNs back out of the mapped collection gives exactly the ISBNs passed in |
| `RequestBuilder.AddBookRequestBuilder.constructor` | Bookstore.Api.Automation/Tests/Builders/AddBookRequestBuilder.cs:9-12 | a new builder owns a new request with user id `""` and an empty ISBN collection |
| `RequestBuilder.AddBookRequestBuilder.WithUserId` | Bookstore.Api.Automation/Tests/Builders/AddBookRequestBuilder.cs:14-18 | sets the user id, leaves the ISBN collection unchanged, returns the same builder |
| `RequestBuilder.AddBookRequestBuilder.WithIsbn` | Bookstore.Api.Automation/Tests/Builders/AddBookRequestBuilder.cs:20-27 | the collection becomes exactly one entry with that ISBN, the same as `WithIsbns([isbn])`; earlier entries are discarded, the user id is unchanged, the same builder is returned |
| `RequestBuilder.AddBookRequestBuilder.WithIsbns` | Bookstore.Api.Automation/Tests/Builders/AddBookRequestBuilder.cs:29-35 | the collection becomes one entry per argument in order, and its ISBNs read back as the arguments; earlier entries are discarded, the user id is unchanged, the same builder is returned |
| `RequestBuilder.AddBookRequestBuilder.Build` | Bookstore.Api.Automation/Tests/Builders/AddBookRequestBuilder.cs:37-40 | returns the builder's own request object, not a copy |
| `RequestBuilder.BuildThenReconfigure` | Bookstore.Api.Automation/Tests/Builders/AddBookRequestBuilder.cs:14-40 | after a chained `WithUserId(u).WithIsbn(i).Build()`, a later `WithIsbns(xs)` on the same builder shows through the request returned earlier: it has user id u and the entries for xs, so the last collection setter wins |

## Left out

- The HTTP clients, the REST client factory and the bearer-token authenticator: they perform network I/O through a REST library.
- The shared authentication fixture and its collection definition: environment variables, dotenv loading and the test runner's asynchronous lifecycle.
- The other members of `AllureReport` (`Arrange`, `AttachApiCall`, `Assertions`, `AddStep`, the attachment helpers and `SerializeToJson`): they write into the test report sink or depend on the JSON serialiser's behaviour.
- The test classes and the catalog, token and add-book response models: they assert against a remote server, and their JSON field mapping and date handling are serialiser behaviour.
- The platform line terminator is one fixed constant, `"\n"`.
- The status labels are kept as the literal strings `? PASS` and `? FAIL` that appear in the source; whatever symbols they were meant to be is not modelled.
- AssertionReport.AssertionBuilder.Add: an argument is modelled as null or as an object with a known string form; an object whose `ToString()` itself returns null (which the source also stores as `"null"`) is not a separate case.
- RequestBuilder.AddBookRequestBuilder.WithIsbns: the argument is a sequence, so a null array (which makes the source throw) cannot be passed.
- ISBN entries are values, not objects: changing an entry's ISBN in place through a request that was handed out, and the identity of the list objects the setters allocate, are not modelled.
