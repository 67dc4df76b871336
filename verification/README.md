# go-k1ng SMS client, modelled in Dafny

This project models the two pieces of logic in the go-k1ng client for an SMS
HTTP API:

- **The transport** (`core/core.go`). A `Core` holds a base URL and the API
  key and password. `New` clears the query and the fragment of the parsed
  host URL. These are the URI components of sections 3.4 and 3.5 of RFC 3986.
  `baseUrl` right-trims `/`, `?` and `#` from the URL string. `ConsumeAPI`
  adds `api_key` and `api_pass` to the caller's parameters in place. It then
  issues a GET or a POST to `baseUrl + "/" + endpoint`. Any other method is
  refused.
- **The message builder** (`sms/sms.go`). `Sms` is a mutable draft: module,
  channel, sender id, content, template and an ordered list of destinations.
  It is modelled as a class. Its fluent setters change one field each and
  return the same object. `urlValues` checks the draft and turns it into form
  parameters. It adds them one `Add` at a time and returns early on the first
  failing check. `Send` and `SendAt` validate first, call the transport only
  after validation succeeds, and turn a status other than 200 into an error.

Files:

| file | module | contents |
|---|---|---|
| `wrappers.dfy` | `Wrappers` | `Option`, `Result` |
| `text.dfy` | `Text` | the Go string helpers the core uses: `TrimRight`, `TrimLeft`, `TrimSpace`, `Join`, `Itoa` |
| `http.dfy` | `Http` | `url.Values` as a class over its log of `Add` calls, the request kinds, and a `Network` stand-in that records requests |
| `core.dfy` | `Core` | URL components, `Core`, `New`, `BaseUrl`, `ConsumeAPI` |
| `sms.dfy` | `Sms` | the draft, the parameter specification `Params`, the `Sms` class, the constructors |

`url.Values` is modelled as the sequence of its `Add` calls. `ValuesOf(pairs, key)`
gives Go's map view `values[key]`. The sequence also fixes the order in which the
parameters were added.

The network is a `Network` object. Its `respond` function gives the reply (a
status and a body, or a transport error) to each request. Its `sent` field
records every request made. So "no request is made" is stated as `sent`
staying unchanged.

**The content check is kept as the source writes it.** At sms/sms.go:123 the
"message content must not empty" check tests `len(s.sid)` again instead of
the content. Once the sender-id check has passed, this check can never fire.
An empty content is therefore accepted and sent as `content=`. The model keeps
this behaviour, because it is what the client does: `Params` and
`Sms.UrlValues` re-test the sender id. `EmptyContentNeverReported` proves that
the `EmptyContent` error is never produced.

## Model

| member | source | states |
|---|---|---|
| Text.TrimRight | core/core.go:58 | the result is a prefix of the input; every removed character is in the cut set; the result is empty or does not end in a cut character |
| Text.TrimRightIdempotent | core/core.go:58 | trimming an already trimmed string changes nothing |
| Text.TrimLeft | sms/sms.go:128 | the result is a suffix of the input; every removed character is in the cut set; the result is empty or does not start with a cut character |
| Text.TrimSpace | sms/sms.go:128 | the trimmed template is the slice of the input that follows its leading white space and is followed only by white space, and it is empty or starts and ends with a character that is not white space |
| Text.TrimSpaceEmptyIffBlank | sms/sms.go:128 | `TrimSpace(s)` is empty exactly when every character of `s` is white space |
| Text.Join | sms/sms.go:135 | joining no elements gives the empty string, one element gives that element, and the joined length is the total length of the elements plus one separator between each pair of neighbours |
| Text.JoinAppend | sms/sms.go:135 | joining `a + b` equals joining `a`, the separator, then joining `b`: order is kept and nothing is dropped or merged |
| Text.Itoa | sms/sms.go:179 | the text is not empty, starts with `-` exactly when the number is negative, and is decimal digits after that |
| Text.DecimalRoundTrip | sms/sms.go:179 | the decimal digits of `n` read back as `n` |
| Text.ItoaInjective | sms/sms.go:179 | different status codes give different `Itoa` strings |
| Http.ValuesOfAppend | sms/sms.go:113-138 | the map view of two `Add` logs one after the other is the two views concatenated, key by key |
| Http.ValuesOfUnique | sms/sms.go:113-138 | a key added exactly once has exactly that one value |
| Http.Values.constructor | sms/sms.go:114 | `url.Values{}` starts with no entries |
| Http.Values.Add | sms/sms.go:115 | `Add` appends the value to its key's list and leaves every other key's list unchanged |
| Http.Network.Do | core/core.go:69-71 | one request is recorded, and the reply is what the network gives for it |
| Core.UrlString | core/core.go:58 | the URL string starts with the scheme, authority and path; it is exactly that when there is no query, no `ForceQuery` and no fragment; otherwise `?` follows when there is a query or `ForceQuery`, and `#` when there is only a fragment |
| Core.Message | core/core.go:73 | an unknown method gives "method not allowed"; URL and transport errors keep their own text |
| Core.New | core/core.go:40-55 | a parse error is returned as `InvalidUrl`; otherwise `RawQuery`, `RawFragment` and `Fragment` are blank, every other URL component is unchanged, and key and password are stored |
| Core.BaseUrl | core/core.go:57-59 | the base URL is a prefix of the URL string, only `/`, `?` and `#` were cut from its end, and it does not end in one of them |
| Core.BaseUrlIsTrimmed | core/core.go:57-59 | trimming the base URL again changes nothing |
| Core.BaseUrlIgnoresQueryAndFragment | core/core.go:46-59 | after `New`, the base URL is the trimmed scheme, authority and path of the parsed URL; its query, fragment and `ForceQuery` flag leave no trace |
| Core.BaseUrlExample | core/core.go:40-59 | `https://api.example.com/v1?x=1#frag` gives the base URL `https://api.example.com/v1` |
| Core.ConsumeAPI | core/core.go:62-74 | `api_key` then `api_pass` are appended to the caller's `data`, whatever the method, and the existing entries are kept; GET and POST send exactly one request to `BaseUrl + "/" + endpoint`; any other method gives "method not allowed" and sends nothing |
| Sms.Message | sms/sms.go:167-185 | a status error reads "http status code" followed directly by the decimal code; transport, read and decode errors keep their own text |
| Sms.ValidationMessagesDistinct | sms/sms.go:118-134 | the sender-id, content and destination errors have three different messages, and none equals a status error's message |
| Sms.HttpStatusMessageNamesCode | sms/sms.go:178-181 | two status errors have the same message only when their codes are equal |
| Sms.Params | sms/sms.go:113-138 | validation succeeds exactly when there is a sender id and a destination; an empty sender id is exactly the sender-id error; the content error never occurs; the parameters always start with `module` and `sub_module` |
| Sms.TemplateSentIffNotBlank | sms/sms.go:128-130 | `template_name` is added exactly when the template is not blank, and its value is the untrimmed template |
| Sms.ParamsOfValidDraft | sms/sms.go:113-138 | with a sender id and at least one destination, validation succeeds and the parameters are exactly `module`, `sub_module` (the channel), `sid`, `content`, the optional `template_name` and `destination`, in this order |
| Sms.ParamsValuesSplit | sms/sms.go:113-138 | the map view of a validated draft's parameters is made of the values of its six `Add` calls |
| Sms.ParamsValuesOf | sms/sms.go:113-138 | the values of any key in the parameters of a validated draft |
| Sms.ParamsHaveOneValuePerKey | sms/sms.go:113-138 | in a validated draft's parameters, each of `module`, `sub_module`, `sid`, `content` and `destination` has exactly one value; `template_name` has one value or none |
| Sms.EmptySenderIdFirst | sms/sms.go:114-120 | an empty sender id always gives "sender id must not empty", whatever the other fields hold, with only `module` and `sub_module` added |
| Sms.EmptyContentNeverReported | sms/sms.go:121-126 | the content check never fires; with a sender id, the content is added even when empty |
| Sms.EmptyDestinationAfterContent | sms/sms.go:121-134 | with a sender id and no destination, the error is "destination content must not empty", and `sid`, `content` and the optional template were already added |
| Sms.DestinationsJoinInOrder | sms/sms.go:135-145 | destinations added in two batches are joined in insertion order, with one comma between the batches |
| Sms.DestinationExample | sms/sms.go:135-145 | adding `0811` and `0822`, then `0833`, gives `0811,0822,0833` |
| Sms.Outcome | sms/sms.go:167-188 | a send succeeds only on a readable 200 reply whose body decodes, and then returns the decoded body; a readable reply with any other status is the status error; a transport error, a read error and a decode error are each passed on unchanged |
| Sms.Sms.constructor | sms/sms.go:52-56 | a new builder has module SMS, the given channel and transport, and an empty draft |
| Sms.Sms.SetSenderId | sms/sms.go:85-88 | sets the sender id only and returns the same builder |
| Sms.Sms.SetChannel | sms/sms.go:92-95 | sets the channel only and returns the same builder |
| Sms.Sms.SetContent | sms/sms.go:100-103 | sets the content only and returns the same builder |
| Sms.Sms.SetTemplate | sms/sms.go:108-111 | sets the template only and returns the same builder |
| Sms.Sms.AddDestination | sms/sms.go:142-145 | appends the numbers in the given order, keeping duplicates, and changes nothing else |
| Sms.Sms.EmptyDestination | sms/sms.go:149-152 | clears the destinations only |
| Sms.Sms.Reset | sms/sms.go:156-158 | clears sender id, content, template and destinations, keeping transport, module and channel; the reset draft fails validation with the sender-id error |
| Sms.Sms.UrlValues | sms/sms.go:113-138 | builds, by successive `Add` calls with early returns, exactly the parameters and error that `Params` gives for the draft |
| Sms.Sms.Send | sms/sms.go:161-189 | an invalid draft returns its validation error and sends nothing; a valid one sends exactly one POST of the parameters plus credentials to `api/v1/send`, and the result is `Outcome` of its reply; the draft is not changed |
| Sms.Sms.SendAt | sms/sms.go:192-221 | as `Send`, with `schedule_time` added after validation and before the credentials |
| Sms.Sms.Deliver | sms/sms.go:167-188 | the tail that `Send` and `SendAt` share: the credentials are appended to the parameters, one POST of the given parameters plus credentials is sent, and the result is given by `Outcome` |
| Sms.Create | sms/sms.go:46-57 | a URL error is passed on; otherwise a fresh builder with module SMS, the given channel, the transport `New` builds and an empty draft |
| Sms.Default | sms/sms.go:61-63 | `create` with the `DEFAULT` channel: a URL error is passed on; otherwise a fresh builder with module SMS, the stripped URL, the caller's key and password, and an empty draft |
| Sms.LongNumber | sms/sms.go:67-69 | `create` with the `LONGNUMBER` channel: a URL error is passed on; otherwise a fresh builder with module SMS, the stripped URL, the caller's key and password, and an empty draft |
| Sms.OTP | sms/sms.go:73-75 | `create` with the `2FA` channel: a URL error is passed on; otherwise a fresh builder with module SMS, the stripped URL, the caller's key and password, and an empty draft |
| Sms.Regular | sms/sms.go:79-81 | `create` with the `NON-2FA` channel: a URL error is passed on; otherwise a fresh builder with module SMS, the stripped URL, the caller's key and password, and an empty draft |

## Left out

- `url.Parse` (core/core.go:41) is not modelled. Its outcome is the parameter `parsed` of `New` and of the builder constructors.
- `URL.String()` is simplified in `Core.UrlString`. User information that is present but empty (`http://@h/x`) is not told apart from none, so its `@` is not written. Host and path escaping, `RawPath`, `OmitHost` and the `./` prefix for a colon in the first path segment are not modelled. The fragment is written from `RawFragment` when that is set, and from `Fragment` otherwise.
- `New` clears the three URL fields on a copy of the parsed URL value, not on a shared object. `url.Parse` returns a fresh `*url.URL` that nothing else refers to, so no aliasing is lost. The transport is a datatype because nothing changes it after `New`.
- `url.Values.Encode` (core/core.go:69) and its percent-encoding and key sorting are not modelled. A GET request records its parameters, which stand for the encoded query string.
- The HTTP calls `http.Get` and `http.PostForm` are replaced by `Network.Do`, a stand-in that records the request and returns a fixed reply for it. `io.ReadAll` is modelled by the reply's body being either readable or a read error. `resp.Body.Close` is not modelled.
- `json.Unmarshal` is the parameter `decode` of `Send` and `SendAt`. `core/response.go` is only the `Core.Response` datatype, because it has no logic.
- `time.Time.Format` with the MySQL layout is not modelled. `SendAt` takes the schedule time as an already formatted string.
- Text.TrimSpace: trims ASCII white space only (tab, line feed, vertical tab, form feed, carriage return, space). The Unicode spaces Go also trims are left out.
- Go's `error` values are modelled as the datatypes `Core.CoreError` and `Sms.SmsError`. Their messages are given by `Message`.
- `len(s.sid)` counts bytes in Go and characters here. The two agree on emptiness, which is all the checks test.
- The cut sets of `TrimRight` and `TrimLeft` are sets of characters, not strings as in Go. Order and repetition in a cut set do not matter.
- `EmptyDestination` sets the slice to `nil` in Go. Here it sets the sequence to empty, which every operation treats the same way.
- `create` stores the `*core.Core` that `core.New` returns in a field declared as `core.Core`. The model stores the value, which is the evident intent. Nothing changes the transport after `New`, so no behaviour differs.
- There is no concurrency in the code, and none is modelled.
