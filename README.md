# huggo: a Dafny model of the Hub client's transport core

huggo is a Go client for the Hugging Face Hub REST API. This project models its small
request and transport layer in Dafny, together with the one hand-written JSON decoder and the resource
facades that sit on top of it:

- **Option resolution** (`Http`). `NewHttpClient` starts from the given key and the
  default base URL `https://huggingface.co/api`. It runs the `WithAPIKey` / `WithBaseURL` options in
  order on an `Options` record that they update in place, and gives up at the first
  option that fails. The method loops over a sequence of option values and is proved
  against the pure fold `Resolve`. Lemmas about `Resolve` show that the first invalid option decides
  the error, that later options play no part, and that the last option setting a field
  wins.
- **Request construction and response policy** (`Http.HttpClient`). `NewRequest`
  allocates a `Request` object and sets its two headers. The URL is the base URL and the
  path joined with no separator. The `Authorization` value is a bearer credential in the
  sense of section 2.1 of RFC 6750. A reference parser of that syntax shows the key can be
  read back exactly when it is a b64token. `DoRequest` applies the response policy
  `Settle`. A transport error is returned as it is. Every status other than 200 OK
  (section 15.3.1 of RFC 9110) becomes an error that quotes the status line and the
  whole body, and the result slot is left untouched. A 200 response is decoded into the
  slot. `Get` sends no body. `Post`, `Put` and `Delete` serialise the payload first, so
  `Delete` carries a body too.
- **The `Gated` field** (`CollectionApi`). It decodes a JSON member by trying a boolean
  first, then a string, and fails otherwise. A member that is missing leaves the field
  with no value.
- **Facades** (`CollectionApi.Collection`, `SearchApi.Search`,
  `RepositoryApi.Repository`). Each one picks a verb and a path, passes a result slot,
  and returns the verb's error in its own way:
  - `GetCollections` wraps it with `%w`.
  - The Search getters return it unchanged.
  - The repository calls prefix it with `%v`.

The HTTP stack, URL parsing and encoding/json are not modelled. Their behaviour enters as
function values: `Http.Net` holds `parseUrl` and `roundTrip`, and the model also takes a
`Marshaller`, a `Decoder` and a `Parser`. Every property is therefore proved for every
possible behaviour of those libraries.

Two facts about the code shape the model:
- Decoding is never skipped: http_client.go:96 decodes even into a nil slot, so the
  repository calls' 200 responses go through the decoder. Here that slot is the unit
  value `()`.
- Transport errors are returned unchanged (http_client.go:86-88).

## Model

| member | source | states |
|---|---|---|
| `Http.Applied` | http_client.go:23-42 | an option succeeds exactly when its argument is non-empty; a failing option returns its own message; a valid one sets exactly its own field and keeps the other |
| `Http.Resolve` | http_client.go:52-62 | resolution succeeds exactly when every option in the list is valid |
| `Http.ResolveLastWriterWins` | http_client.go:57-62 | with valid options each field ends up with the value of the LAST option that sets it (scanning from the end), or keeps its default; custom values replace the defaults |
| `Http.ResolveFailsAtFirstInvalid` | http_client.go:57-61 | for valid options `pre`, an invalid `bad` and ANY `post`, resolving `pre + [bad] + post` returns `bad`'s error: the first failure decides and later options never matter |
| `Http.ResolveExamples` | http_client_test.go:9-23 | no options give the key as passed (an empty key included, it is not validated) and the default URL; the test's custom options give "customApiKey" and "customURL" |
| `Http.Options.constructor` | http_client.go:53-56 | the record starts as the given key and the default base URL |
| `Http.Options.Apply` | http_client.go:23-42 | a failing option returns its error and leaves the record unchanged; a valid one updates the record in place as `Applied` says |
| `Http.NewHttpClient` | http_client.go:52-69 | the loop's result agrees with `Resolve`: on success a new client holding the resolved key and URL and the given HTTP stack, on failure the first error and no client |
| `Http.HttpClient.constructor` | http_client.go:64-68 | the client holds the resolved key and URL and the HTTP stack |
| `Http.BearerRoundTrip` | http_client.go:79 | the RFC 6750 reading of "Bearer " + key gives back the key exactly when the key is a b64token; an empty key yields no credential |
| `Http.Bearer` | http_client.go:79 | the credential is "Bearer " followed by the key, nothing trimmed or escaped |
| `Http.Headers` | http_client.go:78-79 | exactly two headers: Content-Type: application/json and Authorization: "Bearer " + key |
| `Http.Request.constructor` | http_client.go:74 | a new request holds the verb, the URL and the body, with no headers yet |
| `Http.HttpClient.Prepared` | http_client.go:72-80 | the target is baseURL followed by path with nothing in between; the headers are exactly Content-Type: application/json and an Authorization value of exactly "Bearer " + key, from which a b64token key is read back |
| `Http.Request.SetHeader` | http_client.go:78-79 | setting a header replaces that key's value and keeps the others |
| `Http.HttpClient.NewRequest` | http_client.go:72-81 | a URL the parser rejects is returned as the error with no request; otherwise a new request object that puts the prepared request on the wire |
| `Http.StatusMessage` | http_client.go:91-93 | the failure message contains both the status line and the full response body |
| `Http.Settle` | http_client.go:84-98 | transport errors pass through as they are; any status but 200 (201 and 204 included) fails with the status and body quoted and the slot untouched; a 200 response is decoded; success implies status 200 |
| `Http.HttpClient.DoRequest` | http_client.go:84-98 | the result is `Settle` applied to the round trip of the request object's wire form |
| `Http.HttpClient.Send` | http_client.go:100-107 | a URL failure is wrapped with the verb's prefix and the result does not depend on the network; a transport error is returned as it is; a non-200 status fails with a plain error quoting the status and body, slot untouched; a 200 response returns the decoder's reply as it is, a decode error included; success, and any change to the result slot, happen only on a 200 response to the prepared request |
| `Http.HttpClient.Issue` | http_client.go:109-120 | a serialisation failure is returned with the "failed to serialize body" prefix, and the result does not depend on the URL or the network; otherwise the payload's JSON is the request body |
| `Http.HttpClient.Get` | http_client.go:100-107 | GET on baseURL + path with no body |
| `Http.HttpClient.Post` | http_client.go:109-120 | POST with the serialised payload as body |
| `Http.HttpClient.Put` | http_client.go:122-133 | PUT with the serialised payload as body |
| `Http.HttpClient.Delete` | http_client.go:135-146 | DELETE with the serialised payload as body |
| `Http.RequestExample` | http_client_test.go:26-40 | a default client's GET /hello targets https://huggingface.co/api/hello with the JSON content type and "Bearer apiKey" |
| `CollectionApi.DecodeGated` | collection.go:86-98 | the result is a boolean exactly when the member is a JSON boolean and a string exactly when it is a JSON string; it holds that very value; a string is stored only after the boolean attempt failed; anything else fails with the raw text in the message; it never yields "no value" |
| `CollectionApi.Gated.constructor` | collection.go:82-84 | a fresh field holds no value |
| `CollectionApi.Gated.Value` | collection.go:100-102 | returns the stored value as it is, with no conversion |
| `CollectionApi.Gated.UnmarshalJSON` | collection.go:86-102 | a successful decode stores exactly the decoded value, and `Value()` returns it unconverted; a failed decode returns the error and keeps the previous value |
| `CollectionApi.DecodeGatedMember` | collection_test.go:64-98 | a missing member decodes without error to no value, and only a missing member does; a present one goes through `DecodeGated` |
| `CollectionApi.GatedExamples` | collection_test.go:8-98 | true and false give booleans, "gated" gives the string, 69, 42 and non-JSON are rejected, a missing member gives no value |
| `CollectionApi.Collection.GetCollections` | collection.go:17-24 | GET /collections into an empty list; on failure the error is wrapped with %w, so `Is` finds the cause; on success the decoded list |
| `SearchApi.PathOf` | search.go:18-98 | every path is absolute; the by-id paths end with "/" followed by the id, unescaped |
| `SearchApi.PathsDistinct` | search.go:18-98 | different Search resources, and different ids of one kind, never share a path |
| `SearchApi.Search.GetModels` | search.go:18-25 | GET /models with no body into an empty list; the error unchanged or the decoded list |
| `SearchApi.Search.GetModel` | search.go:28-36 | GET "/models/" + id with no body; the error unchanged or the decoded record |
| `SearchApi.Search.GetDatasets` | search.go:39-46 | GET /datasets with no body; the error unchanged or the decoded list |
| `SearchApi.Search.GetDataset` | search.go:49-57 | GET "/datasets/" + id with no body; the error unchanged or the decoded record |
| `SearchApi.Search.GetDatasetsTags` | search.go:60-67 | GET /datasets-tags-by-type with no body; the error unchanged or the decoded record |
| `SearchApi.Search.GetSpaces` | search.go:70-77 | GET /spaces with no body; the error unchanged or the decoded list |
| `SearchApi.Search.GetSpacesByRepository` | search.go:80-88 | GET "/spaces/" + repositoryID with no body; the error unchanged or the decoded record |
| `SearchApi.Search.GetMetrics` | search.go:91-98 | GET /metrics with no body; the error unchanged or the decoded list |
| `RepositoryApi.Annotate` | repository.go:30-33 | %v wrapping: nil stays nil; an error becomes a plain error that starts with the prefix and ends with the cause's text, and the cause itself cannot be unwrapped |
| `RepositoryApi.VisibilityPath` | repository.go:79 | "/repos/", the type, "/" and the id, each part copied unescaped |
| `RepositoryApi.Repository.CreateRepository` | repository.go:28-34 | POST /repos/create with the payload as body and a nil slot; nil on success, else "failed to create repository: " + cause |
| `RepositoryApi.Repository.DeleteRepository` | repository.go:46-52 | DELETE /repos/delete with the payload as body and a nil slot; nil on success, else "failed to delete repository: " + cause |
| `RepositoryApi.Repository.MoveRepository` | repository.go:64-70 | POST /repos/move with the payload as body and a nil slot; nil on success, else "failed to move repository: " + cause |
| `RepositoryApi.Repository.UpdateRepositoryVisibility` | repository.go:78-85 | PUT "/repos/" + type + "/" + id with the payload as body and a nil slot; failures reuse the "failed to create repository: " prefix, as written |
| `RepositoryApi.VisibilityFailureReadsAsCreate` | repository.go:81-84 | because of the reused prefix, a visibility update and a create that fail with the same cause return errors with identical text |
| `RepositoryApi.VisibilityPathIsAmbiguous` | repository.go:79 | the path parts are not escaped, so ("a", "b/c") and ("a/b", "c") address the same path |

## Left out

- HTTP execution (`http.Client.Do`), URL parsing inside `http.NewRequest`, and reading and closing
  the response body are network and library code. They are the function values
  `Net.roundTrip` and `Net.parseUrl`. A response body is taken as fully read; the ignored
  `io.ReadAll` error is not modelled.
- `json.Marshal`, `json.Decoder.Decode` and `json.Unmarshal` are library code. They are
  the function values `Marshaller`, `Decoder` and `Parser`. Go's handling of a nil result
  slot (`Decode(nil)`) is whatever the given `Decoder` does with the unit slot.
- CollectionApi.DecodeGated: a JSON `null` is treated as neither a boolean nor a string,
  so it is rejected. Go's unmarshalling of `null` into a bool succeeds and leaves `false`,
  so the Go code would store `false`. huggo's tests do not cover this case.
- CollectionApi.DecodeGatedMember: the enclosing object's decoding is library code. Go's
  case-insensitive key matching and its treatment of duplicate keys are not modelled.
  The member is handed over as missing or present.
- CollectionApi.GatedExamples: for input that is not JSON at all, `json.Unmarshal` fails
  with its own syntax error before `Gated`'s decoder runs. The model reaches an error
  through the parser's failure instead, with Gated's message. Only "an error, and no value
  stored" is claimed.
- DTO field lists (`Model`, `Dataset`, `Space`, `CollectionInfo`, `Metric`, ...) carry no
  behaviour. Every response record is an `Encoding.Dto` of JSON members. A nil slice and
  an empty one are both the empty sequence. `time.Time` parsing is not modelled.
- How many times a request is sent is not modelled: `Net.roundTrip` is a function value,
  so the model states what each call returns, not that the request goes out exactly once
  or not at all.
- Error identity: `Errors.Error` values compare by structure, and `Is` is structural
  equality along the wrap chain. Go's `errors.Is` compares error values by identity, so
  two `fmt.Errorf` results with the same text are distinct there.
- Header key canonicalisation by `Header.Set`: both keys are already in canonical form.
- user.go (`WhoAmI`, a single GET `/whoami-v2`) and hub.go (`NewHub`, which wires three
  facades to one client) are not part of this model.
- The sharing of one `http.Client` between goroutines is a concurrency concern. The model
  is sequential.
