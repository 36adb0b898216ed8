# simpledns: reply assembly and settings loading

A Dafny model of two parts of the simpledns forwarding DNS server.

- **Reply assembly** (`Server`). `DnsServer.HandleQuery` models `handle_query`
  after the request datagram has been received. Decoding is an abstract
  `Result`. The reply echoes the request's id and sets the query-response,
  recursion-desired and recursion-available flags. With no question it
  carries FORMERR. Otherwise only the first question is looked up: a failed
  lookup gives SERVFAIL, and a successful one copies the question, the
  upstream response code and the answer, authority and additional sections,
  adding one to a section's count per record pushed. `DnsServer.Lookup`
  models `lookup`: it picks any configured upstream (or 8.8.8.8), always on
  port 53, builds a fresh recursive query for the one question, and performs
  one round trip through a `Transport` function from the backup port.
- **Settings** (`Settings`). `LoadFromFile` models the defaulting and casting
  of `load_from_file` over the parsed YAML documents of the file at the
  shell-expanded name. `LoadDefault` models the search of `load_default` for
  the first existing configuration file among three fixed candidates; the
  existence test (`Path::exists`) sees the candidate as written, unexpanded.
- `Packet` is the in-memory message the server manipulates. `Ints` holds
  Rust's integer types, the truncating `as` casts and the wrapping `+= 1`.

Explicit assumptions, because the packet module of the repository
(`crate::dns_packet`) is not part of this model:

- `Packet.NewPacket` stands for `DnsPacket::new()`: id 0, all flags clear,
  NOERROR, zero counts and empty sections.
- `Packet.AddQuestion` stands for `add_question`: it appends the question and
  adds one to the question count.
- Decoding a datagram and the whole upstream round trip (bind, send, receive,
  decode) are inputs: a `Result` value and a `Transport` function.
- Header counts are `u16`, so `+= 1` is modelled with the wrap-around of a
  release build. Each count is therefore the number of records pushed modulo
  65536. `RelayedCountsMatch` shows the counts equal the section lengths
  whenever those fit in 16 bits. That the upstream result's sections do fit
  is an assumption about the decoder, whose 16-bit header counts bound them.

`DnsServer.records` is stored but never read by `handle_query` or `lookup`
(src/dns_server.rs:39-115), so every question is forwarded upstream; there is
no local answer path.

## Model

| member | source | states |
|---|---|---|
| `Ints.Bits64` | src/settings.rs:34-45 | the 64-bit two's-complement pattern of an i64 is the value itself or the value plus 2^64, below 2^64 |
| `Ints.AsU16` | src/settings.rs:34-41 | `x as u16` on an i64 is congruent to x modulo 2^16 (the low 16 bits of its two's-complement pattern) |
| `Ints.AsU32` | src/settings.rs:42-45 | `x as u32` on an i64 is congruent to x modulo 2^32 |
| `Ints.WrappingInc16` | src/dns_server.rs:58-76 | a `u16` count goes up by one, and wraps from 65535 to 0 |
| `Ints.CastsKeepFittingValues` | src/settings.rs:34-45 | the casts leave a value that already fits in the target type unchanged |
| `Ints.CastOfMinusOne` | src/settings.rs:34-45 | truncation is two's complement: -1 becomes 65535 as u16 and 4294967295 as u32 |
| `Server.RelayedCountsMatch` | src/dns_server.rs:57-77 | a relayed reply's counts equal its section lengths when the upstream sections fit in 16 bits |
| `Server.DnsServer.constructor` | src/dns_server.rs:19-26 | the server keeps the ports, upstream list and record table it is given |
| `Server.DnsServer.Lookup` | src/dns_server.rs:94-115 | the upstream is a configured server, or 8.8.8.8 when none is configured, always on port 53; the query has recursion desired and exactly the one question (name, type); the result is the round trip of that query from the backup port |
| `Server.DnsServer.HandleQuery` | src/dns_server.rs:39-92 | an undecodable request is returned as its error with no reply and no lookup; a reply always echoes the request id and sets the three flags; no question gives FORMERR with empty sections and zero counts; only the first question is looked up; a failed lookup gives SERVFAIL with nothing copied; a successful one gives exactly that question, the upstream response code, and the three upstream sections in order, each count being the number of records pushed |
| `Settings.LoadFromFile` | src/settings.rs:23-77 | the file read is the one at the expanded name; a parse error is passed on; no YAML document is an error; otherwise the first document alone decides: each port is 53 or 42069 when no integer is given and otherwise congruent to the given integer modulo 2^16, the thread count is 1 or congruent modulo 2^32, use-udp is false exactly when false is given, use-tcp is true exactly when true is given, the database file is the expanded given string or the expanded default |
| `Settings.LoadDocumentRoundTrip` | src/settings.rs:30-70 | settings written out as a YAML document load back unchanged |
| `Settings.LoadDefaults` | src/settings.rs:34-61 | a first document in which no key holds a value of its expected type (absent, of another type, or the document is not a mapping) yields 53, 42069, the expanded default database path, 1 thread, UDP on and TCP off |
| `Settings.LaterDocumentsIgnored` | src/settings.rs:30-33 | documents after the first never change the result |
| `Settings.FirstExistingUnique` | src/settings.rs:80-84 | there is only one first existing candidate, so no later candidate can be chosen over an earlier one that exists |
| `Settings.SelectConfigFile` | src/settings.rs:80-84 | the empty string exactly when no candidate passes the test; otherwise the first candidate that passes it |
| `Settings.LoadDefault` | src/settings.rs:79-87 | no path is chosen exactly when none of the three candidates exists as written, and then loading fails; otherwise the chosen path is the first such candidate and the result is that of loading it |
| `Settings.HomeConfigMissedAsWritten` | src/settings.rs:80-86 | with the configuration present only under the home directory, no literal candidate exists, so `load_default` fails, although the expanded path it would read exists |
| `Settings.LoadDefaultExpanded` | src/settings.rs:79-87 | corrected search: candidates are tested at their expanded paths, so a chosen candidate's expanded path, the file loaded, exists, and it is the first candidate whose expanded path exists |

## Left out

- Sockets: binding the listening socket, receiving and sending datagrams, and the endless loop of `run` that logs errors and carries on. These are I/O and non-termination. A failed send of the reply is not modelled.
- The random draw of the upstream server. `Lookup` may pick any configured server, so nothing is said about uniformity.
- The DNS wire codec (`from_bytes`, `to_bytes`, `add_question`, `DnsQuestion::new`, `print_hex_bytes`) and the 512-byte receive buffer. The packet module is not part of this model; only the two assumptions above are made about it.
- All printed and logged output.
- File reading, YAML parsing and shell expansion. They are the `Reader` and `Expander` parameters (expansion applies to the file name read and to the database path), and file existence is a predicate. The panic of `.expect` on an unreadable file and of `.unwrap()` on a failed expansion are not modelled.
- Settings.LoadDefault: the `panic!` when no candidate exists is modelled as the error `NoValidConfigFile`, not as a process abort.
- Server.DnsServer.HandleQuery: a count overflow is modelled as release-build wrap-around, not as the panic of a debug build.
- `thread_count` and `use_tcp` are loaded but have no effect on the server code, so neither concurrency nor TCP is modelled.

## Findings

| source | as written | input that shows it | evidently intended | confidence | as-written member | corrected member |
|---|---|---|---|---|---|---|
| src/settings.rs:83 | `Path::new(filename).exists()` tests the candidate without shell expansion, while `load_from_file` reads the expanded name (src/settings.rs:26) | only `$HOME/.config/simpledns/dns.config.yaml` exists: the candidate `~/.config/simpledns/dns.config.yaml` is not found (there is no directory named `~`), so `load_default` panics; conversely a directory literally named `~` makes the test pass for a file that is not the one read | test each candidate at its expanded path, the path that is then read | high (not executed) | `Settings.HomeConfigMissedAsWritten` | `Settings.LoadDefaultExpanded` |
