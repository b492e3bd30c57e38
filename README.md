# Remote photo show: show state, master commands and Basic auth

This project models the request-handling core of the remote photo show server
(`server.go`). A "master" page drives a slide show that many viewers follow
over server-sent events. The model covers:

- **Show state.** The package variables `imgID`, `endID`, `photoJSON` and
  `photoErr` become the fields of the class `Show.ShowState`. The
  server-sent-events streamer becomes `events`, the append-only log of
  `(id, event, data)` triples handed to it.
  - `reset` sets the index to 0, reloads the photo list and always sends one
    `reset` event.
  - `setID` refuses an index above `endID` and otherwise moves the show and
    sends one `set` event.
  - `loadPhotos` keeps the non-directory entries in listing order. It sets
    `endID` to `uint64(len) - 1`, which wraps to 2^64 - 1 for an empty list.
  - The class invariant `Valid()` is `imgID <= endID`, and a stored load
    error leaves no photo list behind. Every handler preserves it.
- **Master commands.** `PhotoMasterCMD` dispatches on the `cmd` form field.
  For `set` it parses the `id` field with `strconv.ParseUint(s, 10, 0)`:
  non-empty, decimal digits only, and a value that fits in 64 bits. The
  model also says which error (`ErrSyntax` or `ErrRange`) a malformed field
  gets.
- **Basic authentication.** The `BasicAuth` wrapper follows the "Basic"
  scheme of section 2 of RFC 7617. A request is let through exactly when:
  - the `Authorization` header starts with `Basic `;
  - the rest decodes as padded standard base64 (section 4 of RFC 4648), read
    the way Go's `base64.StdEncoding` reads it;
  - the decoded bytes are the user, a colon and the password, and the user
    contains no colon (the configured `gordon` has none); the bytes before
    the first colon are compared with the user.

  Every other request gets 401 with `WWW-Authenticate: Basic realm=Restricted`.
- **Photo listing.** `PhotosJSON` answers 500 when a load error is stored.
  Otherwise it returns the photo list and the current index.

With no photos, `setID` accepts every index: `endID` wraps to 2^64 - 1 and
no code tests it as an "empty" marker. The model keeps this behaviour as
written (`ShowScenarios.EmptyShowAcceptsAnyId`).

Reading the photo directory is an input to the model (`Show.DirScan`). So is the
`Authorization` header and the form fields; a missing header or field is the
empty string, as Go's `Header.Get` and `PostFormValue` return.

Files: `types.dfy` (Go's `uint64`, `byte`, wrap-around subtraction, `Option`,
`Result`), `decimal.dfy`, `base64.dfy`, `auth.dfy`, `show.dfy`,
`scenarios.dfy` (sequences of handler calls and what a client observes).

## Model

| member | source | states |
|---|---|---|
| Types.WrappingSub | server.go:120 | `uint64` subtraction is exact when no borrow occurs, and wraps modulo 2^64 otherwise |
| Types.AsciiBytes | server.go:176-177 | `[]byte(s)` of an ASCII string has one byte per character, equal to its code |
| Decimal.ParseUintSpec | server.go:135 | `ParseUint(s, 10, 64)` succeeds iff `s` is non-empty, all decimal digits, and its value is at most 2^64 - 1; then it yields that value; the empty string is a syntax error |
| Decimal.ParseUintErrors | server.go:135-142 | a first non-digit is a syntax error when the digits before it fit in 64 bits and a range error otherwise |
| Decimal.ScanDigitsNeverSyntax | server.go:135 | the digit loop over a string of digits never reports a syntax error |
| Decimal.ParseUintOverflow | server.go:135-142 | a non-empty digit string whose value exceeds 2^64 - 1 is a range error |
| Decimal.FormatUintDigits | server.go:88 | the decimal text of a `set` index is a non-empty digit string whose value is the index |
| Decimal.FormatUintCanonical | server.go:88 | that text has no leading zero |
| Decimal.ParseFormatRoundTrip | server.go:88 | parsing the decimal `set` payload gives back the index sent |
| Base64.CharOf | server.go:57 | each 6-bit value has an alphabet character that decodes back to it and is neither padding nor a line break |
| Base64.StripNewlines | server.go:57 | the result holds no CR or LF; a newline-free input is kept as is; a single character is dropped iff it is CR or LF |
| Base64.StripNewlinesAppend | server.go:57 | stripping distributes over concatenation, so every other character is kept, in order |
| Base64.Encode | server.go:57 | padded encoding produces 4 characters per started group of 3 bytes, with no line breaks |
| Base64.DecodeEncode | server.go:57 | `DecodeString` of a padded standard encoding gives back the encoded bytes |
| Auth.SplitFirst | server.go:59-60 | `SplitN(payload, ":", 2)` has two parts iff a colon occurs; the parts join around that colon, and the first part holds no colon |
| Auth.SplitFirstUnique | server.go:59 | the split at the first colon is the only split whose left part has no colon |
| Auth.AuthorizedIff | server.go:55-60 | the header is accepted iff it is `Basic ` + text decoding to `user:pass`, with no colon in `user`; the password may contain colons |
| Auth.EncodedCredentialsAccepted | server.go:55-62 | `Basic ` + base64(`user:pass`) is accepted iff the user contains no colon |
| Auth.BasicAuth | server.go:49-71 | the inner handler runs exactly for the headers `AuthorizedIff` describes; every other request gets 401 with challenge `Basic realm=Restricted` |
| Show.SetEvent | server.go:88 | a `set` event is named `set` and its data parses back to the index |
| Show.NonDirNamesAppend | server.go:113-117 | filtering a concatenation of listings is the concatenation of the filtered parts, in order |
| Show.NonDirNamesMembers | server.go:113-117 | a name is in the photo list iff some non-directory entry carries it |
| Show.NonDirNamesLength | server.go:106-117 | there are never more photos than entries, and none when every entry is a directory |
| Show.EndIdFor | server.go:120 | the last index is `n - 1` for `n` photos, and 2^64 - 1 when there are none |
| Show.Dispatch | server.go:133-153 | `set` with a parsable id is a set of exactly that value; `set` with anything else is rejected with its `ParseUint` error; `reset` is a reset; any other `cmd` is rejected |
| Show.ShowState.constructor | server.go:40-46 | the package variables start at zero, no error, no photos, with nothing sent |
| Show.ShowState.LoadPhotos | server.go:94-122 | the result is the non-directory names in order, or empty for a non-directory path; `endID` becomes `len - 1` wrapped; a failed scan returns its error with no list and leaves `endID` alone |
| Show.ShowState.Reset | server.go:75-79 | index 0; list, error and `endID` as loaded, so a successful load clears an old error; exactly one `reset` event with empty data is appended whether or not the load failed; `Valid()` kept |
| Show.ShowState.SetID | server.go:82-91 | fails iff `id > endID`, and then changes nothing and sends nothing; otherwise sets the index and appends exactly one `set` event for `id`; `Valid()` kept |
| Show.ShowState.Command | server.go:132-154 | a valid in-range `set` moves the show with 200; out-of-range is 400 `invalid ID`; an unparsable id is 400 with its parse error; `reset` resets; another `cmd` is 500; the rejections change nothing and send nothing |
| Show.ShowState.MasterPost | server.go:182 | `POST /master` with refused credentials is 401 and changes nothing; with accepted ones it is exactly `Command` |
| Show.ShowState.Listing | server.go:156-165 | 500 iff a load error is stored, carrying it; otherwise the stored photo list and the current index |
| ShowScenarios.TwoPhotos | server.go:75-91 | files `a.jpg`, `b.jpg` and a sub-directory: after reset the list is both files at index 0; `set 1` gives index 1 and one `set` event with data `1`; `set 5` is refused and the listing is unchanged |
| ShowScenarios.FailedReloadThenRecovery | server.go:75-79 | a failed reload makes the listing a 500 and keeps `endID`. It still sends `reset`, and the next successful reload lists the new photos at index 0 |
| ShowScenarios.EmptyShowAcceptsAnyId | server.go:120 | with no photos every `set` of any 64-bit index is accepted |
| ShowScenarios.ConfiguredCredentialsAccepted | server.go:176-182 | the configured user `gordon` with password `secret!`, sent as `Basic` + base64, passes the wrapper |
| ShowScenarios.NotBase64Refused | server.go:55-70 | `Basic !!!!` does not decode, so the wrapper refuses it |
| ShowScenarios.MalformedAuthorization | server.go:69-70 | a `reset` POST whose header is not base64 gets 401, and the index (moved to 1 beforehand), the last index, the photo list, the load error and the event log all stay as they were |

## Left out

- The `github.com/julienschmidt/sse` streamer is not part of this model. Its client registry, fan-out, framing and flushing are reduced to the append-only `events` log. `SetEvent` assumes `SendUint` writes the index in decimal.
- Directory I/O (`os.Open`, `Stat`, `Readdir`, `Close`) is the input `Show.DirScan`. Any of their errors is `ScanFailed` with the error text.
- `json.Marshal` and the `fmt.Fprintf` body of the listing are left out. The photo list is kept as a sequence of names, not serialised bytes. A nil `photoJSON` after a failed load is the empty list, which the listing never shows.
- Error texts are represented by the `Show.Reason` datatype, not strings. This covers the `strconv.NumError` text for a bad id, with Go's quoting of the input.
- `Decimal.ParseUintSpec`: bit size 0 means the platform's `int` size, and the model fixes it at 64 bits. A 32-bit build would stop at 2^32 - 1.
- Static file serving (`PhotoShow`, `PhotoMaster`, `PhotosServer`, `Favicon`), router setup, TLS and `ListenAndServe` are HTTP plumbing and are left out.
- Concurrent, unsynchronised handler calls on the package variables are left out. Every operation is modelled as one sequential call.
- Form parsing failures of `PostFormValue` are not modelled separately. They give an empty `cmd`, which the model treats as an unknown command (500).
