# IronMQ Ruby client: request pipeline and error translation

This project models `IronMQ::Client` and `IronMQ::Error` from the IronMQ Ruby
client (`lib/iron_mq/client.rb`), the layer that turns a call such as
`client.get(path, params)` into an authenticated HTTP request and turns the
response into either a parsed JSON payload or an `IronMQ::Error` carrying the
HTTP status.

Files and modules:

- `iron_mq.dfy`, module `IronMQ`: the `Client` class with its fields, its
  constructor and its attribute writers; `full_url`, the common headers, the
  request descriptors of `get`, `post` and `delete`, `check_response`, and
  `IronMQ::Error`. Ruby exceptions are values of `Outcome` (`Returned` or
  `Raised`). The HTTP transport is a parameter `net: Request -> Transported`;
  `JSON.parse`, `to_json` and Ruby's `inspect` of an Array or Hash are the
  functions in a `Codec` parameter.
- `ruby_values.dfy`, module `RubyValues`: option keys (symbol or string),
  option values, Ruby truthiness, `a || b`, and string interpolation.
- `json.dfy`, module `Json`: JSON values and the codec parameter.
- `decimal.dfy`, module `Decimal`: `Integer#to_s` as used by interpolation,
  and its inverse.
- `strings.dfy`, module `Strings`: character search and substring tests.
- `wrappers.dfy`, module `Wrappers`: `Option`.

Behaviour of the code that the model keeps as written:

- `scheme=`, `host=` and `port=` rewrite their fields but do not update the
  cached `@base_url`, so `base_url` and `full_url` keep using the settings
  resolved by the constructor.
- With a status of 400 or more and a body that parses to an Array, an
  Integer, `nil`, `true` or `false`, evaluating `res["msg"]` raises
  `TypeError` or `NoMethodError`, so no `IronMQ::Error` is raised
  (`MsgText`, `ErrorStatusRaises`).
- With a status of 400 or more and a String body, `res["msg"]` is
  `String#[]`: the detail is `"msg"` when the body contains that text and
  empty otherwise (`StringErrorBody`).
- A Hash body without a `msg` key gives the message `"Status <s>: "`,
  because `nil` interpolates as the empty string (`HashErrorBody`).
- Option lookup follows Ruby's `||`: only `nil` and `false` fall through to
  the next candidate, so `port: 0` and `scheme: ""` are kept as given.

## Model

| member | source | states |
|---|---|---|
| `RubyValues.Or` | lib/iron_mq/client.rb:16-21 | Ruby's short-circuit `or` is truthy exactly when one of its operands is, and its result is always one of the operands. A truthy left operand is kept and the right one is never consulted; a falsy left operand hands over the right one as it is, even when that is `nil` or `false`. |
| `RubyValues.Fetch` | lib/iron_mq/client.rb:16-21 | `options[key]` on a Hash without a default is the stored value, or `nil` when the key is absent. |
| `RubyValues.Interpolate` | lib/iron_mq/client.rb:23 | `"#{v}"` gives "" for `nil`, the string itself for a String, "true"/"false" for a boolean, and for an Integer exactly the text `Integer#to_s` writes (no leading zero, no `-0`), which reads back to that integer. |
| `IronMQ.Lookup` | lib/iron_mq/client.rb:16-17 | Option resolution without a default. The symbol key's value wins when truthy; otherwise the string key's value is used, which is `nil` when absent. |
| `IronMQ.LookupOr` | lib/iron_mq/client.rb:18-21 | Option resolution with a default. The symbol key wins, then the string key, then the default. A truthy default guarantees a truthy result. |
| `IronMQ.Client.constructor` | lib/iron_mq/client.rb:12-27 | `token` and `project_id` resolve with no default. `queue_name`, `scheme`, `host` and `port` default to "default", "https", "mq-aws-us-east-1.iron.io" and 443. `baseUrl` is `scheme://host:port/1` composed from the resolved values. |
| `IronMQ.DefaultBaseUrl` | lib/iron_mq/client.rb:19-23 | With an empty options hash, the base URL is exactly `https://mq-aws-us-east-1.iron.io:443/1`. |
| `IronMQ.BaseUrlRoundTrip` | lib/iron_mq/client.rb:23 | The base URL (`ComposeBaseUrl`) is the literal composition of scheme, host and port. When the scheme and host contain no colon, `ParseBaseUrl` recovers all three parts unchanged. |
| `IronMQ.BaseUrlInjective` | lib/iron_mq/client.rb:23 | Distinct colon-free (scheme, host, port) triples never give the same base URL. |
| `Decimal.FromNat` | lib/iron_mq/client.rb:23 | An interpolated natural number is a non-empty string of decimal digits. Its first digit is `0` exactly when the number is 0, and then the text is exactly `0`, as `Integer#to_s` writes it. |
| `Decimal.FromInt` | lib/iron_mq/client.rb:122 | An interpolated integer is non-empty and holds only digits and `-`. It starts with `-` exactly when the integer is negative. It is exactly the text `Integer#to_s` writes: only 0 starts with a zero digit, and a minus sign is never followed by `0`. |
| `Decimal.ParseFromNat` | lib/iron_mq/client.rb:23 | Reading the interpolated digits back gives the original number. |
| `Decimal.ParseFromInt` | lib/iron_mq/client.rb:127 | Reading an interpolated integer back gives the original integer. |
| `Decimal.FromIntInjective` | lib/iron_mq/client.rb:122 | Distinct statuses render as distinct texts. |
| `IronMQ.Client.SetToken` | lib/iron_mq/client.rb:9 | `token=` replaces only the token. |
| `IronMQ.Client.SetProjectId` | lib/iron_mq/client.rb:9 | `project_id=` replaces only the project id. |
| `IronMQ.Client.SetQueueName` | lib/iron_mq/client.rb:9 | `queue_name=` replaces only the queue name. |
| `IronMQ.Client.SetScheme` | lib/iron_mq/client.rb:10 | `scheme=` replaces the scheme. The cached base URL is unchanged. |
| `IronMQ.Client.SetHost` | lib/iron_mq/client.rb:10 | `host=` replaces the host. The cached base URL is unchanged. |
| `IronMQ.Client.SetPort` | lib/iron_mq/client.rb:10 | `port=` replaces the port. The cached base URL is unchanged. |
| `IronMQ.Client.BaseUrl` | lib/iron_mq/client.rb:37-40 | `base_url` is the URL composed from the scheme, host and port resolved at construction, whatever the accessors have written since. |
| `IronMQ.Client.FullUrl` | lib/iron_mq/client.rb:42-45 | `full_url(path)` starts with the cached base URL, and the rest is exactly `path`. No slash is added or removed. |
| `IronMQ.Client.CommonHeaders` | lib/iron_mq/client.rb:47-53 | There are exactly three headers: `Content-Type: application/json`, `User-Agent: IronMQ Ruby Client`, and an `Authorization` header whose OAuth credential is the interpolated token. |
| `IronMQ.Client.GetRequest` | lib/iron_mq/client.rb:56-63 | A GET goes to `full_url(path)` with the common headers. `params` is the query, and there is no body. |
| `IronMQ.Client.PostRequest` | lib/iron_mq/client.rb:70-79 | A POST goes to `full_url(path)` with the common headers. `params.to_json` is the body, and there is no query. |
| `IronMQ.Client.DeleteRequest` | lib/iron_mq/client.rb:89-98 | A DELETE URL is composed inline but equals `full_url(path)`. It carries the common headers, `params` as the query, and no body. |
| `IronMQ.Client.Get` | lib/iron_mq/client.rb:56-68 | `get` sends the GET descriptor once and answers the transport's result as `Answers` states. |
| `IronMQ.Client.Post` | lib/iron_mq/client.rb:70-86 | `post` sends the POST descriptor once and answers the transport's result as `Answers` states. |
| `IronMQ.Client.Delete` | lib/iron_mq/client.rb:89-105 | `delete` sends the DELETE descriptor once and answers the transport's result as `Answers` states. |
| `IronMQ.Finish` | lib/iron_mq/client.rb:66-67 | The call pairs the value `check_response` returns with the response's HTTP status, and lets any exception through. It returns exactly when the response arrived, the body parsed and the status is below 400. |
| `IronMQ.CheckResponse` | lib/iron_mq/client.rb:107-130 | Parsing comes first: an unparsable body raises `IronMQ::Error("Status <s>: <class>: <message>", status: s)` whatever the status, 2xx included. A value is returned exactly when the body parses and the status is below 400, and it is the parsed value unchanged. |
| `IronMQ.MsgText` | lib/iron_mq/client.rb:127 | `"#{res["msg"]}"` returns a text exactly for a Hash or a String. A Hash gives its interpolated `msg` entry, or "" when the key is absent. A String gives "msg" when it contains that text and "" otherwise. An Array or Integer raises `TypeError`; `nil`, `true` or `false` raises `NoMethodError`. |
| `IronMQ.Display` | lib/iron_mq/client.rb:127 | Interpolating a parsed `msg` value gives "" for `null`, the string itself, "true"/"false", for an integer exactly the text `Integer#to_s` writes (which reads back to it), and the `inspect` rendering of an Array or a Hash. |
| `IronMQ.HashErrorBody` | lib/iron_mq/client.rb:126-128 | For a JSON-object body with status of 400 or more, the call raises an `IronMQ::Error`. Its status is the HTTP status and its message reads back as exactly that status plus the interpolated `msg`, which is empty when the key is absent. |
| `IronMQ.StringErrorBody` | lib/iron_mq/client.rb:126-128 | For a JSON-string body with status of 400 or more, the call raises an `IronMQ::Error` with the HTTP status. Its message reads back as that status plus "msg" when the body contains "msg", and plus "" otherwise. |
| `IronMQ.ErrorCarriesStatus` | lib/iron_mq/client.rb:118-128 | Every `IronMQ::Error` raised by `check_response` carries the HTTP status, both as `status` and at the head of its message. |
| `IronMQ.ErrorStatusRaises` | lib/iron_mq/client.rb:118-128 | A status of 400 or more never returns. The raised exception is an `IronMQ::Error` exactly when the body is unparsable, an object or a string. An array or integer body raises `TypeError` ("no implicit conversion of String into Integer"); a `null` or boolean body raises `NoMethodError`. |
| `IronMQ.StatusMessageRoundTrip` | lib/iron_mq/client.rb:122-127 | The `"Status <s>: <detail>"` format (`StatusMessage`) loses nothing: `ParseStatusMessage` recovers both the status and the detail. |
| `IronMQ.ParseStatusMessageExact` | lib/iron_mq/client.rb:122-127 | Conversely, any text that `ParseStatusMessage` reads as a status and a detail is exactly `"Status <s>: <detail>"` for them, with the status written as `Integer#to_s` writes it. A read-back message is therefore pinned character for character. |
| `IronMQ.StatusError` | lib/iron_mq/client.rb:134-143 | `Error.new(msg, :status => s)` has message `msg` and `status` `s`. |
| `IronMQ.Error.Status` | lib/iron_mq/client.rb:140-142 | `Error#status` is the `:status` option, or `nil` when it was not given. |
| `Strings.ContainsWitness` | lib/iron_mq/client.rb:127 | The substring test behind `String#[]` (a string `res`) holds exactly when `"msg"` occurs at some index. |

## Left out

- The Faraday transport (`Faraday.new` and the request blocks) is the parameter `net`. Connection errors are passed through as `Failed(exception)`, and timeouts are the transport's concern.
- `JSON.parse`, `to_json` and Ruby's `inspect` of an Array or Hash are the functions of the `Codec` parameter. JSON numbers are integers only, so floats are not modelled.
- The logger and every `debug` call are not modelled. With a working logger the debug calls do not affect results. Replacing the logger through `logger=` (with `nil`, or with a logger whose `debug` raises) would abort `get`, `post`, `delete` and `check_response`, and that is not modelled.
- `messages` and `queues` build `Messages` and `Queues`. Those classes are not part of this model.
- The `req_hash` built in `delete` is never used, so it has no effect.
- The integration tests and the queue-draining script talk to the live service.
- Option values are limited to `nil`, booleans, integers and strings. Other Ruby objects (symbols, floats) and a `nil` options argument are not modelled.
- The `params={}` defaults of `get`, `post` and `delete` are not modelled: callers pass the empty JSON object themselves.
- Headers form a map, so the insertion order of the Ruby hash is not modelled.
- The texts of the `TypeError` and `NoMethodError` raised by `res["msg"]` follow Ruby 2.x wording, which differs between Ruby versions.
- BaseUrlRoundTrip: requires a colon-free scheme and host. A host written as an IPv6 literal composes the same way, but its parts cannot be read back.
