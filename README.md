# vna-zeroconf in Dafny

A model of `vna_zeroconf.py`, a small tool that finds a vector network analyzer on the network and advertises it over multicast DNS service discovery (DNS-SD) as a `_vxi-11._tcp` service. The tool works in three steps:

1. It asks the instrument for its identity with the SCPI query `*IDN?`. The reply is an IEEE 488.2 identification line with four comma-separated fields: manufacturer, model, id and firmware.
2. It turns that line into a record. The two Rohde & Schwarz spellings are folded into `"Rohde & Schwarz"`, and for them the serial and material numbers are cut out of the id field. Any other vendor keeps its name and gets the id as `serial`.
3. It opens one discovery context per local IPv4 address and registers one advertisement through each. When asked, it unregisters everything and closes each context.

The model has three modules:

- `pystr.dfy`, module `PyString`: the Python string operations the parser relies on. These are `strip()`, `split(sep)`, `sep.join(...)`, and slicing that truncates instead of failing.
- `identity.dfy`, module `Identity`: the identity query and the record.
  - The record is the datatype `Identity`. Its vendor-specific keys are a tagged variant, `VendorFields`.
  - `Properties` gives the record's dictionary view. That view is the metadata each advertisement carries.
  - `QueryIdentity` is one query. The transport's result is its input: either no connection, or the text read up to the line feed.
- `publisher.dfy`, module `Publisher`: the process-wide context list `_zc_list`, modelled as the class `ZeroconfPublisher`.
  - Its methods are `Init` (for `init_zeroconf`), `Register` (for `register_vna_service`) and `Teardown` (for `unregister_services`).
  - The record dictionary that `Register` changes in place is the class `IdnRecord`.
  - The discovery library is not modelled. A context is an opaque `Handle`, and every call into the library is appended to the ghost trace `events`. The functions `OpenEvents`, `RegistrationEvents` and `TeardownEvents` specify that trace.

Two points about error handling in the code:

- Teardown is a plain loop. Lines 83-85 have no exception handling, so a failing unregister ends it.
- Only a failure to open the connection gives no identity (lines 29-34). An error while writing the query or reading the reply is not caught.

## Model

| member | source | states |
|---|---|---|
| `PyString.Strip` | vna_zeroconf.py:37 | The stripped reply is one contiguous piece of the input. Everything cut off on either side is whitespace. The result neither starts nor ends with whitespace. |
| `PyString.StripLineFeed` | vna_zeroconf.py:37 | A line read up to and including its line feed strips back to the line, if the line has no surrounding whitespace. |
| `PyString.StripIdempotent` | vna_zeroconf.py:37 | Stripping twice gives the same result as stripping once. |
| `PyString.Split` | vna_zeroconf.py:40 | Splitting on `,` gives one field more than there are commas, and no field contains a comma. |
| `PyString.JoinSplit` | vna_zeroconf.py:40 | Joining the split fields back with the separator gives the original line. |
| `PyString.SplitJoin` | vna_zeroconf.py:40 | Fields without the separator, once joined and split again, come back unchanged. |
| `PyString.Slice` | vna_zeroconf.py:46 | `s[lo:hi]` cuts bounds past the end back to the end. Its length is what is left of the range, and character `k` is `s[lo + k]`. |
| `PyString.Last` | vna_zeroconf.py:44 | `s[-n:]` is the last `min(n, len(s))` characters of `s`, so it is all of `s` when `s` is shorter. |
| `Identity.ParseFields` | vna_zeroconf.py:40 | The four-way unpacking succeeds exactly when the line holds three commas; otherwise the error carries the actual field count. The four fields contain no comma, and joined with commas they give the line. |
| `Identity.ParseJoined` | vna_zeroconf.py:40 | Four comma-free fields joined with commas parse back into exactly those fields. |
| `Identity.MaterialNumber` | vna_zeroconf.py:46 | The material number is the first ten characters of `id` (fewer if `id` is shorter), with a `.` after the fourth and a `K` after the eighth. Its length is that prefix's length plus two. |
| `Identity.Normalize` | vna_zeroconf.py:41-48 | `ip`, `instr`, `id`, `FirmwareVersion` and `IDN` are copied verbatim in both branches. The record takes the Rohde & Schwarz branch exactly when the vendor is `Rohde-Schwarz` or `Rohde&Schwarz`. That branch has the canonical name, a serial number that is the last `min(6, len(id))` characters of `id`, and the material number. Any other vendor keeps its name and has `serial == id`. |
| `Identity.QueryIdentity` | vna_zeroconf.py:28-49 | A failed connection, and only a failed connection, gives `Unreachable`. A reply is identified exactly when its stripped text holds three commas. Otherwise it is `Malformed`, carrying the field count. An identified record has the host as `ip` and the stripped line as `IDN`, and it is `Normalize` of the line's four split fields, so its vendor branch, serial and material numbers or `serial` follow from them, and it has no `fqdn`. |
| `Identity.IdentifiedFields` | vna_zeroconf.py:40-45 | On success, `IDN` splits into four fields. Fields 2 to 4 are `instr`, `id` and the firmware, and the four fields joined with `,` give `IDN`. The manufacturer is field 1, folded when it is a Rohde & Schwarz spelling. |
| `Identity.QueryJoined` | vna_zeroconf.py:37-41 | A reply that is four comma-free fields joined with commas and ended by a line feed, where the joined line neither starts nor ends with whitespace, is identified as the record those fields normalise to. |
| `Identity.Properties` | vna_zeroconf.py:41-48 | The record's dictionary always has `ip`, `Manufacturer`, `instr`, `id`, `FirmwareVersion` and `IDN` with the record's values. `SerialNumber` and `MaterialNumber` are present exactly when `serial` is absent, which is exactly the Rohde & Schwarz branch. `fqdn` is present exactly once the record has been published, and then holds the record's fqdn. |
| `Identity.RohdeSchwarzExample` | vna_zeroconf.py:40-46 | The reply `Rohde&Schwarz,ZNB20-4Port,1311601044101234,3.63` gives manufacturer `Rohde & Schwarz`, serial number `101234` and material number `1311.6010K44`. |
| `Identity.SerialAndMaterialExample` | vna_zeroconf.py:44-46 | The id `1311601044101234` gives serial number `101234` and material number `1311.6010K44`. |
| `Identity.KeysightExample` | vna_zeroconf.py:40-48 | The reply `Keysight,E5071C,MY12345678,A.02.10` keeps manufacturer `Keysight`, has `serial == "MY12345678"`, and has no serial or material number. |
| `Publisher.Fqdn` | vna_zeroconf.py:61 | The host name starts with the model family, which is the model text before its first `-`. That family is a prefix of the model and contains no `-`. The family is followed by `-`, the serial number and `.local.`. |
| `Publisher.ServiceName` | vna_zeroconf.py:63-64 | The instance name is the manufacturer, a space, the model, ` #`, the serial number, then `.` and the service type `_vxi-11._tcp.local.`. |
| `Publisher.Advertisement` | vna_zeroconf.py:69-77 | The bound address is the instrument's `ip`, unless that is `localhost` or `127.0.0.1`; then it is the interface address. The advertised `ip` always equals the bound address, and no other property differs from the record. Port is 5025, weight and priority are 0, and the host name is the fqdn. |
| `Publisher.RegistrationAt` | vna_zeroconf.py:67-78 | There is exactly one registration per context, in list order. Each carries the advertisement for that context's address and refuses renaming on collision. |
| `Publisher.TeardownAt` | vna_zeroconf.py:83-85 | Teardown makes two calls per context, in list order: context `k` is unregistered at step `2k` and closed at step `2k+1`. |
| `Publisher.TeardownClosesEach` | vna_zeroconf.py:83-85 | Every handle is unregistered and closed as many times as it appears in the list, and no other handle is. |
| `Publisher.DistinctHandlesOnce` | vna_zeroconf.py:56-57 | In a list of distinct handles, each listed handle occurs exactly once. Together with `TeardownClosesEach`, every context is closed exactly once. |
| `Publisher.ZeroconfPublisher.constructor` | vna_zeroconf.py:25 | The context list and the trace start empty. |
| `Publisher.ZeroconfPublisher.Init` | vna_zeroconf.py:52-57 | Appends one (address, new context) pair per enumerated address, in enumeration order, and records one open call per pair. Handles stay distinct. |
| `Publisher.ZeroconfPublisher.Register` | vna_zeroconf.py:60-79 | A record without a serial number fails with the missing key, and the record and trace are unchanged. Otherwise the only lasting change to the record is the added `fqdn`; `ip` is restored after every iteration. The trace gains exactly `RegistrationEvents` for the context list. |
| `Publisher.ZeroconfPublisher.Teardown` | vna_zeroconf.py:82-85 | The trace gains exactly `TeardownEvents` for the context list, and the list itself is unchanged. |

## Left out

- The Telnet transport (connecting to port 5025 with a 5-second timeout, writing `*IDN?\n`, `read_until` with a 5-second timeout, closing) is I/O. Its result is the `reply: Option<string>` parameter of `QueryIdentity`.
- Exceptions raised while writing the query or reading the reply are not caught by the code and are not modelled. Nor is the partial text that `read_until` returns on a timeout, beyond its being whatever `reply` holds.
- `QueryIdentity` models the unpacking error (`ValueError`) as the value `Malformed(FieldCount(n))` rather than as an exception.
- `Register` returns `MissingKey(SerialNumberKey)` for a non-Rohde & Schwarz record where the code raises `KeyError`. Both happen before anything is changed.
- `socket.inet_aton` is a foreign call. The bound address is kept as text, so its conversion to four bytes and its failure on a name other than a dotted quad (for example a host name in the configuration file) are not modelled.
- The discovery library is not modelled: `Zeroconf`, `ServiceInfo`, `get_all_addresses`, `register_service`, `unregister_all_services` and `close`.
  - `Init` takes the enumerated addresses as a parameter. Handles are numbered by the model in place of the library's object identity.
  - A registration is recorded as an event. A name collision, which the library reports as an error because renaming is refused, is not modelled.
  - The encoding of the properties into a TXT record is not modelled.
- `Teardown` models no failure of an unregister or close call, because those calls are foreign. The code has no exception handling there, so a failure would end the loop.
- `main` is not part of this model: the configuration file, the retry loop with its one-second sleep, exiting on a keyboard interrupt, waiting for enter, and all printing. The same goes for the `print`/`pprint` calls inside `register_vna_service`, the logging setup and the Python 2 `raw_input` shim.
- `PyString.Last` is defined for a positive count only; `s[-0:]` (all of `s`) never occurs.
- `PyString.IsSpace` covers the ASCII whitespace of Python 2 byte strings. Unicode whitespace is not modelled.
