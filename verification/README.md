# dram_utils diagnostic API: a Dafny model

This project models the request-handling core of `dram_utils`. `dram_utils` is a small Sinatra
service with three network-diagnostic GET routes under `/api`: `/dns`, `/http_ping` and
`/whois`. They share one error protocol. Every failure stops the request with HTTP 400 and a
body `{status: "error", error: {type, msg, details}}`.

- `common.dfy` (module `Common`): `Option` (Ruby's `nil` or a value), plus the string
  predicates `StartsWith`, `EndsWith` and `Contains`, and `NoDuplicates`.
- `errors.dfy` (module `Errors`, from `lib/dram_utils/error.rb`):
  - the error classes (`ErrorKind`) and error instances (`ApiError`);
  - the envelope each instance serialises to (`Envelope`);
  - Sinatra's `halt`, modelled as the failure-compatible `Handled<T>` (`Ok | Halted(status, error)`),
    so `:-` stands for a guard that aborts the request;
  - the two guards `HaltWith` (`halt_with`) and `RequiredParam` (`required_param`).
- `api.dfy` (module `Api`, from `lib/dram_utils/api.rb`):
  - `AF_TABLE`, built by the `select`/`map`/`to_h` pipeline over socket constants (`AfTable`);
  - the `/dns` route with its address-list building;
  - the `/http_ping` route;
  - the `/whois` route and `WHOIS_CACHE`, a class whose `map` field the route updates in place;
  - the `not_found` handler.

The network calls are parameters. Each is a function from the host to what the call returns:
- `resolve` for `TCPSocket.gethostbyname`;
- `probe` for `Net::Ping::HTTP#ping`, which also receives the timeout;
- `whois` for `Whois.whois`.

Sinatra's `url` helper together with `Rack::Utils.escape` is the parameter `link`. `link` maps
the host to the `see=true` link. `AF_TABLE` is a parameter of the DNS route. `AfTable` models
how the table is built from an abstract list of constants.

`WhoisCache` keeps a ghost log `queried` of the hosts whose lookup reached the network. Its
invariant `Valid()` has two parts:
- a host has a cache entry exactly when it is in `queried`;
- no host is in `queried` twice.

Every method keeps `Valid()`. So, in a sequential run, each host is looked up at most once.

Some behaviour of the code that a reader might not expect, kept in the model:
- `required_param` accepts any present value, the empty string included.
- The cache is keyed by the raw `host` string, not by a lower-cased one.
- Any present `see` value, `"false"` included, selects the `see` rendering.
- A cached WHOIS failure is not reported as an error on later requests (see "## Findings"). This reads line 117 with the Ruby 2.4+ grammar, where the `rescue` modifier binds to the right-hand side of `||=`.

## Model

| member | source | states |
|---|---|---|
| `Errors.New` | lib/dram_utils/error.rb:15 | Instantiating an error class with no arguments gives an instance of that class. Only allowed for classes whose initializer takes no argument. |
| `Errors.HaltWith` | lib/dram_utils/error.rb:14-17 | Always halts with status 400. An instance argument is the halted error; a class argument is first instantiated with no arguments. |
| `Errors.RequiredParam` | lib/dram_utils/error.rb:21-23 | Succeeds exactly when the parameter is present, and returns its value; any value counts, `""` included. Otherwise halts with 400 and `MissingParam` carrying the parameter name. |
| `Errors.Envelope` | lib/dram_utils/error.rb:28-100 | Every envelope has status `"error"`, and its `type` maps back to the error's kind. Not-found and DNS-lookup errors have fixed messages and empty details. Missing-parameter `details` is `{name}` and its `msg` contains the name. Whois `details` are exactly the wrapped exception's class name and message. |
| `Errors.TypeIdentifiesKind` | lib/dram_utils/error.rb:33-92 | Two serialisable errors share a `type` string if and only if they are of the same kind, so callers can branch on `type` alone. |
| `Api.IsAfName` | lib/dram_utils/api.rb:19 | The `x.to_s[0..2] == "AF_"` test: Ruby's three-character slice, cut short for shorter names, equals `"AF_"` exactly when the name starts with `AF_`. |
| `Api.AfTable` | lib/dram_utils/api.rb:19-21 | The table of `AF_` constants, where a later constant with the same value replaces an earlier one. Every entry it holds is an `AF_` name, and it has no more entries than there are constants. |
| `Api.AfTableSound` | lib/dram_utils/api.rb:19-21 | Every table entry is the name of an `AF_`-prefixed constant with that value, and no later `AF_` constant has the same value. |
| `Api.AfTableComplete` | lib/dram_utils/api.rb:19-21 | The value of every `AF_`-prefixed constant is a key of the table. |
| `Api.AfTableLastWins` | lib/dram_utils/api.rb:19-21 | When several `AF_` constants share a value, `to_h` keeps the last one's name. |
| `Api.IsInetFamily` | lib/dram_utils/api.rb:45 | The `start_with? "AF_INET"` test holds exactly when the name is `AF_INET` followed by some suffix. |
| `Api.InetFamilies` | lib/dram_utils/api.rb:45 | The `start_with? "AF_INET"` test accepts `AF_INET` followed by any suffix and rejects any name whose first seven characters are not `AF_INET`. So `AF_INET` and `AF_INET6` pass, and `AF_UNIX`, `AF_PACKET` and `AF_INE` fail. |
| `Api.IpsCases` | lib/dram_utils/api.rb:49-52 | The address-list property fixes the list in all four slot cases: `[]`, `[b]` for `(nil, b)`, `[a]` when the second slot is nil or equal to the first, and `[a, b]` otherwise. |
| `Api.CollectIps` | lib/dram_utils/api.rb:50-52 | The built list has at most two entries and the first slot comes first. It holds exactly the present addresses, with no duplicate. |
| `Api.Dns` | lib/dram_utils/api.rb:41-61 | A missing host halts with `missing_parameter`. A failed resolution halts with `DnsLookup` before the family is examined. Success happens exactly when the family's table name starts with `AF_INET`; otherwise the route halts with `DnsWrongAF`. On success, `cname` and `aliases` pass through, `af` is the table name, and `ips` satisfies the address-list property. |
| `Api.HttpPing` | lib/dram_utils/api.rb:76-87 | When the host is present the status is always `"success"`. `result` is true exactly when the probe, run with the 3-second timeout, answered true; a probe that raises gives `false`. |
| `Api.Display` | lib/dram_utils/api.rb:128 | The `"#{w}"` interpolation: a cached record shows its text. A cached exception shows only its message, without the `ERROR:` class line; the message also occurs in the fresh-failure page. |
| `Api.ErrorPage` | lib/dram_utils/api.rb:120-126 | The error view is a `<pre>` block containing `ERROR: <class>` and the exception message. |
| `Api.Respond` | lib/dram_utils/api.rb:119-137 | `see` mode never halts and always renders `<pre>`: the error class and message when `err` is set, otherwise `<pre>` plus the cached value. Without `see`, the route halts with `WhoisError(err)` exactly when `err` is set; otherwise it returns the success link. |
| `Api.WhoisCache.constructor` | lib/dram_utils/api.rb:90 | The cache starts empty, with no host looked up. |
| `Api.WhoisCache.Fetch` | lib/dram_utils/api.rb:116-117 | A hit performs no lookup, leaves the cache unchanged and leaves `err` nil even for a stored failure. A miss performs exactly one lookup and writes only the entry for the raw host string. On a failed miss, `err` is the exception, which is also what gets stored. |
| `Api.WhoisCache.Whois` | lib/dram_utils/api.rb:113-138 | A missing host halts and leaves the cache alone. Otherwise the cache step of `Fetch` runs, then `Respond` with the presence of `see` and the host's `see` link. |
| `Api.WhoisCache.WhoisRemembering` | lib/dram_utils/api.rb:117-131 | Corrected route: `err` comes from the cached outcome, so the answer depends only on the host's entry. The cache changes as in `Whois`. |
| `Api.RepeatedRequestAgrees` | lib/dram_utils/api.rb:117 | With the corrected route, two identical requests in a row get the same answer, and together they add at most one lookup. |
| `Api.FailureForgotten` | lib/dram_utils/api.rb:117-136 | As written, on a fresh cache and a host whose lookup raises: the first request halts with `WhoisError`, and the second answers with the success link. |
| `Api.FailureForgottenSeen` | lib/dram_utils/api.rb:117-128 | As written, the same two requests with `see` present: the first shows the error page with the `ERROR: <class>` line, and the second shows only `<pre>` + the message + `</pre>`. The two pages differ. |
| `Api.FailureRemembered` | lib/dram_utils/api.rb:117-136 | With the corrected route, both of those requests halt with `WhoisError(exc)`. |
| `Api.NotFoundHandler` | lib/dram_utils/api.rb:140 | Any other path halts with status 400 and the `not_found` error. |

## Left out

- Network I/O (`TCPSocket.gethostbyname`, `Net::Ping::HTTP`, `Whois.whois`) is left out. Each call is a function parameter giving its answer for the host.
- The platform contents of `Socket.constants` are left out; the DNS route takes the table as a `map<int, string>`. A family code missing from the table would make the route fail on `nil.start_with?`, so the route requires it to be present.
- The address slots beyond the second are left out. `gethostbyname` may return more addresses; the destructuring at api.rb:49 keeps only the first two, and the model's `HostInfo` holds only those two.
- `DnsWrongAFError`'s envelope is not part of this model. The class is referenced at api.rb:46 but not defined in the source files, so it is the opaque variant `DnsWrongAF`, `Envelope` requires a serialisable error, and `DnsWrongAF` has no `type` or `msg` string.
- Errors.HaltWith: a class argument must take no constructor arguments. `MissingParamError.new` and `WhoisError.new` with no arguments would raise `ArgumentError`, and no caller does this.
- JSON text, Sinatra routing and `halt` control flow are left out. Envelopes and success bodies are records, and `halt` is the `Halted` value.
- `url` and `Rack::Utils.escape` are left out. The `see` link is the abstract function `link` of the raw host.
- Api.HttpPing: the `duration` field is left out. It is a floating-point timing measured by the ping library.
- Concurrent access to `WHOIS_CACHE` is left out. The code takes no lock, and the model is sequential. Its at-most-one-lookup-per-host invariant does not hold for racing first requests.
- `lib/dram_utils/app.rb` (Rack mounting and server start) and `lib/dram_utils/home.rb` (a template render) are not part of this model.
- Ruby's `||=` also recomputes an entry whose value is `nil` or `false`. That is left out because the cache only ever stores WHOIS records and exception objects, and both are truthy.

## Findings

| source | as written | input that shows it | evidently intended | confidence | as-written member | corrected member |
|---|---|---|---|---|---|---|
| lib/dram_utils/api.rb:117 | `err` is bound only by the `rescue` on the request that ran the lookup. A later request that hits a cached exception sees `err` nil. | Two `/whois?host=X` requests where `Whois.whois(X)` raises `E`. The first answers 400 `whois_error`. The second answers `{status: "success", url}`, and its `see` view shows only `E`'s message, without the `ERROR:` class line. | A cached failure is reported as `WhoisError` on every request, as the route's comment says ("Will cause a WhoisError if Whois.whois raises an error", using the cache when available). | medium; not executed; assumes the Ruby grammar of 2.4 and later, where a `rescue` modifier after the right-hand side of an op-assignment such as `||=` belongs to that right-hand side (under the older grammar it wraps the whole assignment, a failed lookup is never cached, and every request halts with `WhoisError`) | `Api.FailureForgotten` (see view: `Api.FailureForgottenSeen`) | `Api.WhoisCache.WhoisRemembering` |
