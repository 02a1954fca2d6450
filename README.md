# pg2kinesis core in Dafny

pg2kinesis forwards row changes from PostgreSQL logical replication to an
Amazon Kinesis stream. This project models two parts of it and proves
properties about them.

The first part is the module `pg2kinesis/formatter.py`, which covers three
things:

- the two *preprocessors* that turn one replication payload into change records;
- the three *formatters* that turn change records into messages;
- the name lookups that choose a preprocessor and a formatter.

There are two preprocessors:

- The `test_decoding` preprocessor parses `BEGIN <xid>`, `COMMIT` and
  `table <name>: <OP>: <col>[<type>]:'<val>' …` lines. It remembers the
  transaction id across calls. It finds the primary key with a pattern built
  per table from the primary-key map.
- The `wal2json` preprocessor takes a decoded JSON document. It yields either
  key-only `Change` records or whole `FullChange` records.

The second part is the `Consume` cycle, as pinned down by `tests/test___main__.py`:

- every formatted message goes to the writer, with filtered-out ones replaced by `None`;
- replication feedback is sent at the event's start position when some put was accepted;
- a ten-second accounting window is kept.

The modules are:

- `Text` (text.dfy): Python's `str.split(sep, n)`, `sep.join`, `s[:-1]`, ASCII `lower`, and decimal `str` of integers.
- `Changes` (changes.dfy): the record types, the decoded values, and the error type with its messages.
- `KeyPatterns` (key_patterns.dfy): the pattern `{col}\[{type}\]:'?([\w\-]+)'?` as a leftmost search.
- `Preprocessing` (preprocessing.dfy):
  - the class `Preprocessor`, whose methods update `curXact`;
  - the functions those methods are proved against: `ParseTestDecoding`, `NextXact` and `Wal2JsonChanges`.
- `Formatting` (formatting.dfy): the formatters and `get_formatter`.
- `Consuming` (consume.dfy):
  - the class `Consume` with its window fields;
  - the method `Call`, which runs one cycle;
  - the three test scenarios.

Raised exceptions become `Err` results:

- `MissingTable`, `MissingPrimaryKey` and `UnknownChange` carry the text their message prints.
- Python's own `IndexError` and `ValueError` become `Runtime` errors.

Some behaviour of the source is easy to overlook, and the model keeps it:

- A missing table in a `test_decoding` record is reported as `rec[1]`, with its trailing colon.
- The primary-key pattern is a substring search, so key `id` of type `uuid` also matches inside `uuid[uuid]:`.
- The table filter of `wal2json` is tested on the bare `table` field, not on `schema.table`.
- A falsy `wal2json` payload gives `None`, not an empty list.

`tests/test___main__.py` pins two behaviours of the cycle that the model keeps:

- Filtered-out messages are still passed to `put_message`, as `None` (tests/test___main__.py:80).
- After a window roll both counters are 0 (tests/test___main__.py:46-51). So the event is counted first, and the roll then clears the counters.

The roll rule is "whole second `now` is a multiple of 10 and differs from the window start". That is what the assertion messages say (tests/test___main__.py:42-55).

## Model

| member | source | states |
|---|---|---|
| Text.SplitAtMost | pg2kinesis/formatter.py:65 | `split(' ', 3)` yields between one and four pieces |
| Text.JoinSplitAtMost | pg2kinesis/formatter.py:65 | splitting loses nothing: joining the pieces with the separator gives the payload back |
| Text.SplitAtMostPieces | pg2kinesis/formatter.py:65 | every piece but the last is free of the separator, and so is the last when fewer than the limit were cut |
| Text.SplitAtMostJoin | pg2kinesis/formatter.py:65 | splitting the join of separator-free pieces recovers them when the limit allows |
| Text.SplitJoin | pg2kinesis/formatter.py:169-170 | unlimited split undoes join on separator-free pieces |
| Text.IndexOf | pg2kinesis/formatter.py:141 | `list.index`: the position holds the value and no earlier position does |
| Text.Lower | pg2kinesis/formatter.py:145 | `lower()` keeps the length and lowers each character in place |
| Text.DropLast | pg2kinesis/formatter.py:72 | `s[:-1]`: the text that, followed by the last character, is `s`; empty for an empty `s` |
| Text.NatToDecimal | pg2kinesis/formatter.py:142 | the decimal text of a number: all digits, denoting the number, with no leading zero (a lone `0` for zero) |
| Changes.PyStr | pg2kinesis/formatter.py:142 | `str()` of a string is that string; of `None`, `True`, `False` those words; of an integer, digits denoting its magnitude without leading zeros, with a leading minus exactly when it is negative |
| Changes.PyStrIntInjective | pg2kinesis/formatter.py:142 | distinct integers print differently |
| Changes.Error.Message | pg2kinesis/formatter.py:19-20 | the message of each error `_log_and_raise` raises: its fixed text and the quoted table or payload (also pg2kinesis/formatter.py:87) |
| Changes.MessageDetermined | pg2kinesis/formatter.py:19-20 | two deliberately raised errors with the same message text are the same error, so the message identifies the table or payload |
| KeyPatterns.PatternFor | pg2kinesis/formatter.py:33-34 | the pattern of one table, by its literal head `col_name[col_type]:`; used by `RegisteredTable` and `TableRecord` |
| KeyPatterns.KeyRun | pg2kinesis/formatter.py:18 | the greedy run `[\w\-]*`: a prefix of key characters, followed by a non-key character or the end |
| KeyPatterns.MatchAt | pg2kinesis/formatter.py:18 | a match at one position captures a non-empty run of `[\w\-]` characters; `MatchAtHead` and `MatchAtShape` state when a match happens and what it captures |
| KeyPatterns.Capture | pg2kinesis/formatter.py:18 | after the head, `'?([\w\-]+)` captures a non-empty run of `[\w\-]` characters |
| KeyPatterns.MatchAtHead | pg2kinesis/formatter.py:18 | the head, an optional quote and a maximal non-empty run of `[\w\-]` characters at a position are a match capturing the whole run |
| KeyPatterns.MatchAtShape | pg2kinesis/formatter.py:18 | conversely, every match at a position is the head, an optional quote, the captured run and then a non-key character or the end |
| KeyPatterns.SearchFrom | pg2kinesis/formatter.py:76 | the leftmost match at or after a position; a capture is a non-empty run of `[\w\-]` characters |
| KeyPatterns.Search | pg2kinesis/formatter.py:76 | `pattern.search(rec[3])` then `groups()[0]`: a capture is a non-empty run of `[\w\-]` characters; located by `SearchLeftmost` and `SearchFirst` |
| KeyPatterns.SearchLeftmost | pg2kinesis/formatter.py:76 | a found key is the capture at the leftmost position where the pattern matches |
| KeyPatterns.SearchMisses | pg2kinesis/formatter.py:76 | the search fails exactly when the pattern matches at no position |
| KeyPatterns.SearchFirst | pg2kinesis/formatter.py:76 | conversely, the leftmost matching position decides the search result |
| KeyPatterns.SearchFromFinds | pg2kinesis/formatter.py:76 | a search from position i finds the first match at or after i |
| KeyPatterns.IdMatchesInsideUuid | pg2kinesis/formatter.py:33-34 | key `id[uuid]:` is found inside the column dump `uuid[uuid]:'x-1'` and captures `x-1` |
| Preprocessing.PluginNamed | pg2kinesis/formatter.py:39-42 | a plugin is found exactly for `test_decoding` and `wal2json`, under its own name |
| Preprocessing.PluginNameRoundTrip | pg2kinesis/formatter.py:39-42 | each plugin is found under its own name |
| Preprocessing.DefaultTableFilter | pg2kinesis/formatter.py:26 | `re.search(r'[\w_\.]+', name)` succeeds exactly when some character of the name is in the class |
| Preprocessing.RegisteredTable | pg2kinesis/formatter.py:31-35 | in a table built from the map, `name:` is registered exactly when `name` is a key, with that key's pattern |
| Preprocessing.PatternTableUnique | pg2kinesis/formatter.py:30-35 | the primary-key map determines the pattern table |
| Preprocessing.Preprocessor.BuildKeyPatterns | pg2kinesis/formatter.py:30-35 | the loop files each table under `name:` with the pattern of its key column, and nothing else |
| Preprocessing.Preprocessor.constructor | pg2kinesis/formatter.py:24-35 | the fields hold the arguments; the filter defaults to `[\w_\.]+`; the transaction id starts empty; the pattern table is well formed |
| Preprocessing.Preprocessor.ForOutputPlugin | pg2kinesis/formatter.py:37-42 | a fresh preprocessor of the named plugin, with the given map and flag, the given table filter or the default one, and an empty transaction id; none for an unknown name |
| Preprocessing.Records | pg2kinesis/formatter.py:65 | `change.split(' ', 3)`: one to four pieces that join back to the payload, all but the last free of spaces |
| Preprocessing.ParseTestDecoding | pg2kinesis/formatter.py:53-89 | what one payload yields, given the transaction id before it; its branches are stated by `BeginRecord`, `BeginWithoutXid`, `CommitRecord`, `CommitTrailer`, `UnknownRecord`, `TableRecord` and `TestDecodingShape` |
| Preprocessing.NextXact | pg2kinesis/formatter.py:67-68 | the transaction id after one payload; stated by `BeginRecord`, `BeginWithoutXid`, `CommitRecord` and `TableRecord` |
| Preprocessing.Preprocessor.PreprocessTestDecoding | pg2kinesis/formatter.py:53-89 | the result is that of `ParseTestDecoding` with the transaction id before the call, and the new id is `NextXact` |
| Preprocessing.FirstPiece | pg2kinesis/formatter.py:65-67 | the first piece of the split is the text before the first space |
| Preprocessing.BeginRecord | pg2kinesis/formatter.py:67-68 | `BEGIN x` yields no change and makes the first token of `x` the transaction id |
| Preprocessing.BeginWithoutXid | pg2kinesis/formatter.py:67-68 | a bare `BEGIN` fails with an IndexError and keeps the transaction id |
| Preprocessing.CommitRecord | pg2kinesis/formatter.py:69-70 | `COMMIT` yields no change and keeps the transaction id |
| Preprocessing.CommitTrailer | pg2kinesis/formatter.py:69-70 | so does `COMMIT` followed by more text |
| Preprocessing.UnknownRecord | pg2kinesis/formatter.py:86-87 | the result is the unknown-change error exactly when the first token is none of `BEGIN`, `COMMIT` and `table` |
| Preprocessing.TableRecords | pg2kinesis/formatter.py:65 | `table n: o: cols` with space-free `n`, `o` splits into `table`, `n:`, `o:` and `cols` |
| Preprocessing.TableFields | pg2kinesis/formatter.py:71-85 | a four-field table record: skipped, missing table, missing key or one change, by the filter, the table and the search |
| Preprocessing.TableRecord | pg2kinesis/formatter.py:71-85 | stated against the primary-key map: filtered out gives no change; unregistered is the missing-table error naming `n:`; no match is the missing-key error; otherwise one `Change(xid, n, o, key)`; the transaction id is unchanged |
| Preprocessing.TestDecodingShape | pg2kinesis/formatter.py:76-83 | any successful parse has at most one change, with the current transaction id and a non-empty `[\w\-]` key |
| Preprocessing.Selected | pg2kinesis/formatter.py:122-126 | an entry is selected exactly when it is in the document and its bare table passes the filter; there are no more than the entries |
| Preprocessing.SelectedAppend | pg2kinesis/formatter.py:122-126 | selection keeps input order: selecting from a concatenation concatenates the selections |
| Preprocessing.SelectedOne | pg2kinesis/formatter.py:123-126 | one entry is selected exactly when its bare table passes the filter |
| Preprocessing.ConvertEntry | pg2kinesis/formatter.py:127-146 | what one selected entry yields; its cases are stated by `FullCapture`, `KeyModeUnregistered`, `KeyModeRegistered` and `KeyModeNoColumn` |
| Preprocessing.Wal2JsonChanges | pg2kinesis/formatter.py:122-147 | the loop over the entries as a function; stated by `Wal2JsonShape`, `Wal2JsonFirstError` and `Wal2JsonErrorSticks` |
| Preprocessing.AllConvertAppend | pg2kinesis/formatter.py:122-146 | every entry of an extended list converts exactly when the old ones and the new one do |
| Preprocessing.Wal2JsonShape | pg2kinesis/formatter.py:122-147 | the conversion succeeds exactly when every entry that passes the filter converts; it then yields one change per such entry, in input order |
| Preprocessing.Wal2JsonFirstError | pg2kinesis/formatter.py:130-142 | a failing conversion reports the error of the first selected entry that fails |
| Preprocessing.Wal2JsonErrorSticks | pg2kinesis/formatter.py:122-147 | once the entries seen so far fail, the whole document fails the same way |
| Preprocessing.FullCapture | pg2kinesis/formatter.py:127-128 | full-capture mode never fails and wraps each selected entry unchanged with the document's xid |
| Preprocessing.KeyModeUnregistered | pg2kinesis/formatter.py:130-133 | key mode on a `schema.table` missing from the map is the missing-table error naming `schema.table` |
| Preprocessing.KeyModeRegistered | pg2kinesis/formatter.py:141-146 | key mode on a registered table: `str` of the value at the first index of the key column, the lowered kind and `schema.table`, or an IndexError when the values are too few |
| Preprocessing.KeyModeNoColumn | pg2kinesis/formatter.py:141 | a key column missing from the column names is a ValueError |
| Preprocessing.Preprocessor.PreprocessWal2Json | pg2kinesis/formatter.py:115-147 | a falsy payload gives `None` and keeps the transaction id; otherwise the id becomes the document's and the result is `Wal2JsonChanges` |
| Formatting.GetFormatter | pg2kinesis/formatter.py:182-184 | a formatter is found exactly for the names of the three variants, under its own name |
| Formatting.GetFormatterRoundTrip | pg2kinesis/formatter.py:182-184 | each variant is found under its name |
| Formatting.CsvText | pg2kinesis/formatter.py:168-171 | the compact text; its layout is stated by `CsvLayout`, its round trip by `CsvRoundTrip` |
| Formatting.CsvLayout | pg2kinesis/formatter.py:166-171 | the compact text is `0,CDC,` then xid, table, operation and key, comma-separated |
| Formatting.ProduceFormattedMessage | pg2kinesis/formatter.py:162-179 | only the compact formatter on a `FullChange` fails (IndexError); otherwise the change is kept; the tagged variants give a text starting with `0,CDC,` |
| Formatting.CsvMessage | pg2kinesis/formatter.py:168-171 | the compact formatter gives the message `(change, "0,CDC,xid,table,op,pkey")` |
| Formatting.CsvPayloadMessage | pg2kinesis/formatter.py:176-179 | the self-describing text is the tag followed by the JSON text of the change |
| Formatting.CsvRoundTrip | pg2kinesis/formatter.py:168-171 | with no comma in any field, splitting the compact text on commas gives back `0`, `CDC` and the four fields |
| Formatting.CsvInjective | pg2kinesis/formatter.py:168-171 | two comma-free key changes with the same compact text are equal, when both xids are text or both are integers |
| Formatting.Format | pg2kinesis/formatter.py:159-160 | `__call__` over a list of changes; stated by `FormatPointwise`, `FormatFirstError`, `PlainIsIdentity` and `TaggedFormat` |
| Formatting.AllFormatCons | pg2kinesis/formatter.py:159-160 | every change of a list formats exactly when its head and its tail do |
| Formatting.FormatPointwise | pg2kinesis/formatter.py:159-160 | `__call__` succeeds exactly when each change formats; it then has the same length, and element i comes from input i |
| Formatting.FormatFirstError | pg2kinesis/formatter.py:159-160 | a failing `__call__` reports the error of the first change that fails |
| Formatting.PlainIsIdentity | pg2kinesis/formatter.py:162-163 | the base formatter hands every change back unchanged |
| Formatting.TaggedFormat | pg2kinesis/formatter.py:166-179 | the tagged formatters pair each change with a text that starts with `0,CDC,`; the compact one fails exactly when some change is a `FullChange` |
| Consuming.WindowAfter | tests/test___main__.py:36-55 | the window after one event; stated by `WindowStartAligned`, `WindowStartMoves`, `NoSecondRoll` and `WindowAccumulates` |
| Consuming.WindowStartAligned | tests/test___main__.py:46-51 | a window that starts on a multiple of ten keeps doing so |
| Consuming.WindowStartMoves | tests/test___main__.py:36-51 | the window start moves exactly on a roll, and then only to the event's second |
| Consuming.NoSecondRoll | tests/test___main__.py:53-55 | a second event in the same second never rolls the window again |
| Consuming.WindowAccumulates | tests/test___main__.py:36-44 | without a roll, the counters grow by the bytes and the number of events |
| Consuming.Outgoing | tests/test___main__.py:77-80 | one `put_message` argument per message, in order: the message itself or `None` when filtered out |
| Consuming.Allowed | tests/test___main__.py:99-102 | a message is allowed exactly when it is in the input and passes the filter; no more than the input |
| Consuming.AllowedAppend | tests/test___main__.py:99-102 | the filter keeps input order: filtering a concatenation concatenates the results |
| Consuming.AllowedOne | tests/test___main__.py:99-102 | one message is kept exactly when it passes the filter |
| Consuming.SentAreAllowed | tests/test___main__.py:99-102 | the messages that reach the writer are exactly the allowed ones, unchanged and in order |
| Consuming.Feedback | tests/test___main__.py:20-31 | feedback is sent, at the event's start, exactly when some put was accepted |
| Consuming.Consume.constructor | tests/test___main__.py:13 | the filter operations are stored and the window starts at 0 with zero counters |
| Consuming.Consume.Call | tests/test___main__.py:20-55 | one cycle: the put arguments are `Outgoing`, the feedback is `Feedback`, and the window is `WindowAfter` of the old window |
| Consuming.StartsWithAny | tests/test___main__.py:58-60 | the tests' filter: the message starts with one of the allowed operations |
| Consuming.FeedbackScenario | tests/test___main__.py:20-31 | with every put refused there is no feedback; with puts accepted there is feedback at 10 |
| Consuming.WindowScenario | tests/test___main__.py:34-55 | from window 10 with zero counters: (10, 100, 1) at 11 s, (20, 0, 0) at 20 s, and size 100 at 20 s again |
| Consuming.ExcludesScenario | tests/test___main__.py:63-80 | with only `delete` allowed, two insert messages are put as `None`, `None`, and there is no feedback |
| Consuming.IncludesScenario | tests/test___main__.py:83-103 | with `delete` allowed, both delete messages are put unchanged, and feedback goes to 10 |

## Left out

- Logging in `_log_and_raise`: an error is modelled only as an `Err` result carrying what the message prints.
- `json.loads`: the `wal2json` preprocessor takes the decoded document, with `None` standing for any falsy payload.
- Missing JSON keys (`KeyError` on `xid`, `change`, `table`, …) are not modelled, since the document datatype always has every field.
- The JSON values are limited to null, booleans, integers and strings. Floats and nested values are not modelled.
- `json.dumps` in `CSVPayloadFormatter` is the parameter `toJson`, since JSON serialisation is not part of this model.
- The general regular-expression engine behind the table filter is not modelled. A given filter is an arbitrary predicate. The default `[\w_\.]+` is `DefaultTableFilter`.
- The primary-key pattern is modelled concretely, with two simplifications. Column name and type are taken as literal text, so regex metacharacters in them are not interpreted. `\w` is read over ASCII, in the key pattern and in `DefaultTableFilter` alike.
- `lower()` is modelled over ASCII letters only.
- Reflection in `get_formatter` and the `iteritems` shim become closed enumerations and a plain loop over the map's keys.
- Subclass dispatch of `preprocess` becomes a `plugin` tag on one `Preprocessor` class. The two methods require the matching tag.
- `pg2kinesis/__main__.py` is not part of this model. `Consume` is reconstructed from the tests, with these consequences:
  - any state or logging of the cycle that the tests do not exercise is not known, and not modelled;
  - the formatter and the writer are inputs (the formatted messages, and the writer's answer to each put);
  - the replication cursor is the returned `flush_lsn`.
- Consuming.Call: sends feedback at most once per event, when some put was accepted. The tests do not distinguish this from one feedback per accepted put.
- Consuming.Call: takes the clock as a whole second `now`. How the cycle turns the clock reading into a second is not shown, so it is not modelled.
- Consuming.Consume.constructor: the initial window (0, 0, 0) is an assumption, since the constructor's source is not part of this model.
- The window roll rule is pinned by the tests only at 11 s, 20 s and 20 s again. A floor-to-ten rule would fit them as well.
