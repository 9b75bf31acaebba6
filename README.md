# zoom-sdk-rust, modelled in Dafny

`zoom-sdk-rust` is a thin, safe Rust wrapper around the Zoom Windows Meeting SDK, plus a
generator that writes the C++ glue the wrapper links against. This project models:

- `src/error.rs`: the mapping of native status codes to `ErrorType` and a message, the
  SDK's last-error record, `Error::new`/`new_rust`, `err_wrap` and the `Display` text
  (modules `Errors`, `Decimal`, `Fmt`).
- `src/lib.rs`:
  - the `InitParam` builder and its caches of NUL-terminated UTF-16 strings;
  - the process-wide `INITIALIZED` flag that allows one live `Sdk` at a time;
  - the `Sdk` clean-up lifecycle;
  - the UTF-16 helpers (modules `ZoomSdk`, `WideString`).
- `src/auth.rs`: the authentication service handle and its create/register/destroy
  sequence, the closure record whose address is the callback context, the two callback
  trampolines, and the `AuthResult` mapping with its descriptions (module `Auth`).
- `src/meeting.rs`: the meeting service handle (module `Meeting`).
- `glue-generator/src/lib.rs`: the generator that writes `generated.hpp` and
  `generated.cpp` (module `Glue`). It emits:
  - one forwarding function per virtual method of every `ZOOMSDK` class;
  - an adapter class with function-pointer fields for every event interface;
  - a default-value function for every typedef that follows a `tag*` struct.
- `glue-generator/src/main.rs`: the earlier generator that prints forwarding functions for
  the classes of `auth_service_interface.h` (module `GlueMain`). Module `GlueText` holds
  what the two generators share.

The native SDK is not modelled. Its enum constants are abstract tables of `i32` values, in
the order of the source's `match` arms; lemmas about the mapping assume they are pairwise
distinct. The native functions are the class `Native.Native`, which records every call made
to it. It returns the status and last-error record it is handed, so every outcome of a
native call is a parameter of the operation that makes it. The environment variables read by
`sdk_auth`, `login` and the generators are parameters too. libclang's parse of the headers
is the input value `Clang.Entity`. The files, standard output and standard error the
generators write are the sequences of writes made to them.

Panics are values. `Errors.Completion` holds a returned value or the `Error` that an
`unwrap` panicked with. The generators return an `Abort` value that says which `panic!` or
`expect` stopped them, and their output up to that point.

## Model

| member | source | states |
|---|---|---|
| Decimal.NatToDecimal | glue-generator/src/lib.rs:279-283 | `{}` of a count: one or more decimal digits, with no leading zero unless the number is 0 |
| Decimal.IntToDecimal | src/error.rs:235-238 | `{}` of an `i32`: non-empty, and it starts with `-` exactly when the number is negative |
| Decimal.NatToDecimalRoundTrip | glue-generator/src/lib.rs:279-283 | reading the digits back gives the number |
| Decimal.IntToDecimalRoundTrip | src/error.rs:235-238 | the text parses as a decimal integer, and parsing it gives the number back |
| Decimal.IntToDecimalInjective | src/error.rs:235-238 | two numbers print the same exactly when they are equal |
| Fmt.DebugStructTwo | src/error.rs:16-26 | `debug_struct` with two fields prints `Name { a: x, b: y }` |
| Fmt.DebugStructThree | src/error.rs:16-26 | `debug_struct` with three fields prints `Name { a: x, b: y, c: z }` |
| Fmt.EscapeChar | src/error.rs:16-26 | `{:?}` of a string writes a double quote, a backslash, a line feed, a carriage return, a tab or a NUL as a backslash pair, and copies every other character; the characters Rust writes as `\u{…}` (non-printable or grapheme-extending) are among those copied, see Left out |
| Fmt.DebugStr | src/error.rs:16-26 | `{:?}` of a string is wrapped in double quotes |
| Fmt.UnescapeEscape | src/error.rs:16-26 | the escaping is invertible, so the printed message determines the message |
| Fmt.DebugStrPlain | src/error.rs:16-26 | a string with nothing to escape prints as itself in quotes |
| WideString.EncodeChar | src/lib.rs:263-268 | a character is one UTF-16 unit that equals its code point and is not a surrogate, or a high surrogate followed by a low one |
| WideString.PairValue | src/lib.rs:257-261 | a surrogate pair decodes to a character outside the Basic Multilingual Plane |
| WideString.StrToU16Vec | src/lib.rs:263-268 | `str_to_u16_vec`: the UTF-16 encoding of the text followed by exactly one terminating 0 |
| WideString.BeforeNul | src/lib.rs:248-255 | the units up to the first 0: a 0-free prefix that a 0 follows |
| WideString.U16PtrToOsString | src/lib.rs:248-255 | a null pointer reads as empty, any other pointer as the units before the first 0 |
| WideString.U16ToString | src/lib.rs:257-261 | well-formed units become the text they encode, and any others become `Invalid string encoding` |
| WideString.TextBeforeNul | src/lib.rs:263-268 | the longest NUL-free prefix of a text, which a NUL ends when it is shorter than the text |
| WideString.EncodeUtf16Append | src/lib.rs:263-268 | encoding a concatenation concatenates the encodings |
| WideString.DecodeEncode | src/lib.rs:257-261 | decoding an encoded text gives the text back |
| WideString.EncodeDecode | src/lib.rs:257-261 | units that decode are the encoding of what they decode to |
| WideString.DecodeWellFormed | src/lib.rs:257-261 | decoding succeeds exactly when every surrogate is correctly paired |
| WideString.EncodeNoNul | src/lib.rs:263-268 | a text without NUL encodes to units without 0 |
| WideString.EncodeBeforeNul | src/lib.rs:248-268 | for a text with a NUL, reading its encoding up to the first 0 gives the encoding of the text before its first NUL |
| WideString.StrToU16VecRoundTrip | src/lib.rs:248-268 | writing a text with `str_to_u16_vec` and reading it back with `u16_to_string` gives the text before its first NUL, so a NUL-free text is returned unchanged |
| Errors.KindAt | src/error.rs:98-130 | the kind at a position of `ErrorType`'s declaration is the one whose position it is |
| Errors.MapErrType | src/error.rs:132-240 | `map_err_type`: never `Rust`; `Undocumented` exactly for codes that match no arm; `Success` exactly for `SDKERR_SUCCESS`; an unknown code's message is `Undocumented SDKError ` and the code in decimal |
| Errors.MapErrTypeNamed | src/error.rs:132-234 | each named constant maps to its own arm's kind and message |
| Errors.NamedErrorTypesDistinct | src/error.rs:98-130 | the 28 named kinds are pairwise different, and none is `Undocumented` or `Rust` |
| Errors.MapErrTypeInjective | src/error.rs:132-234 | different named codes give different kinds |
| Errors.UndocumentedCodeRecoverable | src/error.rs:235-238 | an undocumented code can be parsed back from its message |
| Errors.LastErrorCategory | src/error.rs:74-83 | the category is `Unknown LastErrorType` exactly when the type matches no arm |
| Errors.LastErrorCategoryNamed | src/error.rs:74-83 | each named last-error type gets its own category text |
| Errors.GetLastError | src/error.rs:70-96 | `get_last_error`: no detail for a null pointer; otherwise the category, the code unchanged and the description read as a wide string |
| Errors.NewError | src/error.rs:43-51 | `Error::new`: the mapped kind and message, never `Rust`, with the last error only when it is asked for |
| Errors.NewRust | src/error.rs:53-59 | `Error::new_rust`: kind `Rust`, the given message, no detail |
| Errors.ErrWrap | src/error.rs:32-40 | `err_wrap`: `Ok` exactly for `SDKERR_SUCCESS`, otherwise the `Error::new` error, whose kind is neither `Success` nor `Rust` |
| Errors.Unwrap | src/auth.rs:17-23 | `unwrap` panics exactly on `Err`, with that error, and otherwise yields the value |
| Errors.DisplayWithoutDetail | src/error.rs:16-26 | without a detail, `Display` prints `zoom_sdk::Error { type: T, message: "M" }` |
| Errors.DisplayWithDetail | src/error.rs:16-26 | with a detail, `Display` appends `, detail: ErrorDetail { … }` as a third field |
| Errors.DisplayPlainMessage | src/error.rs:16-26 | a message with nothing to escape is printed verbatim between quotes |
| Errors.DisplayRustMessage | src/error.rs:53-59 | a Rust-side error prints as `zoom_sdk::Error { type: Rust, message: "M" }` |
| Auth.MapAuthResult | src/auth.rs:119-134 | `map_auth_result`: `Unmapped(raw)` exactly for results that match no arm, keeping the raw value; otherwise a named variant |
| Auth.Description | src/auth.rs:136-151 | the description is `Unknown AuthResult` exactly for `Unmapped` |
| Auth.MapAuthResultNamed | src/auth.rs:119-134 | each named constant maps to its own variant |
| Auth.MapAuthResultOnto | src/auth.rs:119-134 | every named variant comes from some constant |
| Auth.DescriptionIsDocComment | src/auth.rs:85-151 | each named variant's description is its doc comment without the final period |
| Auth.DescriptionInjective | src/auth.rs:136-151 | different named variants have different descriptions |
| Auth.Events.constructor | src/auth.rs:69-83 | a fresh closure record has printed nothing and received no call |
| Auth.AuthenticationReturned | src/auth.rs:153-167 | the native result goes through `map_auth_result` to the closure exactly once, which prints `auth ret` and the description, and the login closure is untouched |
| Auth.LoginReturned | src/auth.rs:169-185 | the login closure runs exactly once, the status and account info are ignored, and nothing else changes |
| Auth.SetEvent | src/auth.rs:69-83 | `set_event` registers the new record's address and both trampolines with the service, and returns the record exactly when the native call succeeds |
| Auth.AuthService.New | src/auth.rs:26-35 | `AuthService::new`: a failed create is returned without registering; a null handle is the `ZOOMSDK_CreateAuthService returned null` error; otherwise events are registered on the new handle, and the service is returned exactly when that succeeds |
| Auth.AuthService.SdkAuth | src/auth.rs:37-49 | `sdk_auth` passes key and secret NUL-terminated, which read back as the text before any NUL, and wraps the status |
| Auth.AuthService.Login | src/auth.rs:51-66 | `login` makes a remembered e-mail login with NUL-terminated user and password, and wraps the status |
| Auth.AuthService.Drop | src/auth.rs:17-23 | `Drop` destroys the handle once, and panics exactly when that fails |
| Meeting.MeetingService.New | src/meeting.rs:26-36 | `MeetingService::new`: one create call; the status error, then the null error, and otherwise a service on the new handle |
| Meeting.MeetingService.HandleZoomWebUriProtocolAction | src/meeting.rs:39-46 | the URI goes to the native side NUL-terminated, and the result is `Ok` exactly on success |
| Meeting.MeetingService.Drop | src/meeting.rs:11-17 | `Drop` destroys the handle once, and panics exactly when that fails |
| Meeting.Debug | src/meeting.rs:19-23 | `Debug` prints `zoom_sdk::MeetingService` whatever the service holds |
| ZoomSdk.Discriminant | src/lib.rs:219-246 | `em_language_id as i32` lies in 0..12 |
| ZoomSdk.DiscriminantsInOrder | src/lib.rs:219-246 | the 13 variants have discriminants 0 to 12 in declaration order |
| ZoomSdk.DiscriminantInjective | src/lib.rs:219-246 | two languages share a discriminant exactly when they are equal |
| ZoomSdk.OptionStrEncodeNulWide | src/lib.rs:203-214 | with text, the cache holds its NUL-terminated encoding and the pointer points at it, and it reads back as the text before any NUL; without text, a null pointer and the cache unchanged |
| ZoomSdk.InitParam.constructor | src/lib.rs:42-58 | `InitParam::new`: the native defaults with the web domain set to `https://zoom.us`, and no string field dangling |
| ZoomSdk.InitParam.WebDomain | src/lib.rs:61-68 | sets only the web domain field and its cache, and no string field dangles afterwards |
| ZoomSdk.InitParam.BrandingName | src/lib.rs:71-78 | sets only the branding name field and its cache, and no string field dangles afterwards |
| ZoomSdk.InitParam.SupportUrl | src/lib.rs:81-88 | sets only the support URL field and its cache, and no string field dangles afterwards |
| ZoomSdk.InitParam.ResInstance | src/lib.rs:91-94 | sets only `hResInstance` |
| ZoomSdk.InitParam.UiWindowIconSmallId | src/lib.rs:97-100 | sets only `uiWindowIconSmallID` |
| ZoomSdk.InitParam.UiWindowIconBigId | src/lib.rs:103-106 | sets only `uiWindowIconBigID` |
| ZoomSdk.InitParam.EmLanguageId | src/lib.rs:109-112 | sets only `emLanguageID`, to the language's discriminant |
| ZoomSdk.InitParam.EnableGenerateDump | src/lib.rs:115-118 | sets only `enableGenerateDump` |
| ZoomSdk.InitParam.EnableLogByDefault | src/lib.rs:121-124 | sets only `enableLogByDefault` |
| ZoomSdk.InitParam.UiLogFileSize | src/lib.rs:127-130 | sets only `uiLogFileSize` |
| ZoomSdk.InitParam.InitSdk | src/lib.rs:134-143 | `init_sdk`: when the flag is already set, refuses with `Only one Sdk can exist at a time` and makes no native call. Otherwise it sets the flag and calls `InitSDK`, and returns a new `Sdk` exactly when that succeeds. The flag stays set, and at most one `Sdk` is live throughout |
| ZoomSdk.SdkGlobals.constructor | src/lib.rs:146 | `INITIALIZED` starts cleared, with no live `Sdk` |
| ZoomSdk.Sdk.CleanUpInternalAsWritten | src/lib.rs:189-193 | `clean_up_internal` as written: one `CleanUPSDK`, its wrapped status, and the flag cleared whatever the outcome |
| ZoomSdk.Sdk.CleanUpInternal | src/lib.rs:189-193 | corrected: the flag is cleared only when `CleanUPSDK` succeeds |
| ZoomSdk.Sdk.Drop | src/lib.rs:175-179 | `Drop` runs `clean_up_internal` as written: one `CleanUPSDK`, a panic exactly when it fails, and either way the flag cleared and this `Sdk` no longer live; when it was the only live `Sdk`, none is left |
| ZoomSdk.Sdk.CleanUpAsWritten | src/lib.rs:182-184 | `clean_up` as written: on failure, the error and the `Sdk` come back after one call. On success `CleanUPSDK` runs twice, because the consumed `Sdk` is dropped, and it panics if the second call fails |
| ZoomSdk.Sdk.CleanUp | src/lib.rs:182-184 | corrected: one `CleanUPSDK`. `Ok` exactly on success, with the flag cleared and no `Sdk` live; otherwise the error and the same `Sdk`, with the flag still set |
| ZoomSdk.Sdk.CreateAuthService | src/lib.rs:195-197 | the first native call creates the service; only for a non-null handle does the `AuthSetEvent` registration on that handle follow. A failed create gives its `Error::new` error, a null handle the null error, a failed registration its error; a service comes back exactly when all three succeed |
| ZoomSdk.OnlyOneSdkDisplay | src/lib.rs:299-303 | the refusal prints as `zoom_sdk::Error { type: Rust, message: "Only one Sdk can exist at a time" }` |
| ZoomSdk.DoubleCleanUpAsWritten | src/lib.rs:182-184 | with `clean_up` as written, initialize then clean up makes the calls `InitSDK`, `CleanUPSDK`, `CleanUPSDK` |
| ZoomSdk.SingleCleanUp | src/lib.rs:182-184 | with the corrected `clean_up`, the same sequence makes `InitSDK`, `CleanUPSDK` |
| ZoomSdk.TwoLiveSdksAsWritten | src/lib.rs:189-193 | as written, after a failed clean-up a second `init_sdk` succeeds while the first `Sdk` is still live |
| ZoomSdk.TwoLiveSdksDroppedAsWritten | src/lib.rs:175-193 | as written, when both live values of TwoLiveSdksAsWritten are dropped the trace is `InitSDK`, `CleanUPSDK`, `InitSDK`, `CleanUPSDK`, `CleanUPSDK` |
| ZoomSdk.FailedCleanUpKeepsFlag | src/lib.rs:189-193 | corrected, after a failed clean-up the flag stays set and the second `init_sdk` is refused |
| ZoomSdk.InitAgainFirstSdk | src/lib.rs:297-304 | the test's `sdk1`: `InitSDK`, create, register on the new handle, destroy the temporary service; the second `init_sdk` is refused with the only-one error; `clean_up` as written makes two `CleanUPSDK` calls and leaves the flag clear with no `Sdk` live |
| ZoomSdk.InitAgainSecondSdk | src/lib.rs:305-306 | once the flag is clear, `sdk2` is initialized and live, and its temporary service is created, registered and destroyed |
| ZoomSdk.InitAgainLateCalls | src/lib.rs:307-311 | `clean_up_internal`, a `create_auth_service` that fails with the native error, and the drop of `sdk2` at the end of the scope: `CleanUPSDK`, `CreateAuthService`, `CleanUPSDK` |
| ZoomSdk.InitAgainScenario | src/lib.rs:297-311 | the crate's `zoom_init_again` test from its first `init_sdk` to the end of its scope, with every native call succeeding but the create after `clean_up_internal`: a second `init_sdk` is refused while an `Sdk` is live; after `clean_up` as written, which makes two `CleanUPSDK` calls, initialization succeeds again; the late create fails as `unwrap_err` expects. The 13 native calls are stated in order, each registration on its own handle |
| GlueText.Count | glue-generator/src/lib.rs:278 | the number of occurrences is at most the length, and zero exactly when the name is absent |
| GlueText.CountOccurrences | glue-generator/src/lib.rs:278 | the counting loop computes that number |
| GlueText.CountPrefixGrows | glue-generator/src/lib.rs:278 | each later occurrence of a name counts at least one more than an earlier one |
| GlueText.JoinNamesIsArgNames | glue-generator/src/lib.rs:186-192 | the separator-joined argument names equal the `, `-prefixed list without its first `, ` |
| GlueText.JoinTypedArgsIsArgDecls | glue-generator/src/lib.rs:216-223 | the same for `type name` pairs |
| GlueText.AppendArgDecls | glue-generator/src/lib.rs:166-169 | the loop appends `, type name` for each argument |
| GlueText.AppendArgTypes | glue-generator/src/lib.rs:210-213 | the loop appends `, type` for each argument |
| GlueText.AppendArgNames | glue-generator/src/lib.rs:225-228 | the loop appends `, name` for each argument |
| GlueText.AppendJoinedNames | glue-generator/src/lib.rs:187-192 | the loop appends the names joined by `, ` |
| GlueText.AppendJoinedTypedArgs | glue-generator/src/lib.rs:217-223 | the loop appends the `type name` pairs joined by `, ` |
| Glue.GlueNameInjective | glue-generator/src/lib.rs:279-283 | different counts give different glue names for one method name |
| Glue.RenameOverloads | glue-generator/src/lib.rs:273-285 | `rename_overloads` records the name and keeps the C++ name. The glue name is suffixed with the number of earlier occurrences, and it is the bare name exactly for a first occurrence |
| Glue.OverloadGlueNamesDistinct | glue-generator/src/lib.rs:273-285 | two occurrences of one name never get the same glue name |
| Glue.SignatureDeterminesGlueName | glue-generator/src/lib.rs:161-164 | for one method, two forwarding signatures are equal exactly when their glue names are |
| Glue.EventAheadCorrect | glue-generator/src/lib.rs:122 | the scan finds `Event` ahead exactly when it occurs before any line break |
| Glue.EventInterfaceFromCorrect | glue-generator/src/lib.rs:122 | the scan from a position matches exactly when some later `I` starts a match |
| Glue.EventInterfaceCorrect | glue-generator/src/lib.rs:122-125 | the unanchored `I.*Event` test holds exactly when some `I` is followed by `Event` with no line break between |
| Glue.CallbackField | glue-generator/src/lib.rs:203-207 | the field name is `cb` and the method name without its `on`/`On` |
| Glue.CallbackFieldIgnoresCase | glue-generator/src/lib.rs:203-207 | two event methods share a field exactly when they agree after `on`/`On` |
| Glue.TextsAt | glue-generator/src/lib.rs:152-196 | the i-th header and source entries are the i-th forwarding function's declaration and definition |
| Glue.MembersFoldOkIff | glue-generator/src/lib.rs:136-206 | a class is generated without panic exactly when every member is admissible: a skipped kind or a non-virtual method, or in an event interface an `on` method returning `void` |
| Glue.MembersFoldAbortPersists | glue-generator/src/lib.rs:136-231 | after a panic, later members change nothing |
| Glue.MembersFoldOutput | glue-generator/src/lib.rs:136-231 | without a panic, there is one forwarding function per virtual method, in order |
| Glue.ForwardsForAt | glue-generator/src/lib.rs:148-196 | the i-th forwarding function forwards to the i-th virtual method, and its name counts the earlier virtual methods with the same name |
| Glue.OverloadsGetDistinctGlueNames | glue-generator/src/lib.rs:152-164 | two virtual methods of one class with the same name get different glue functions |
| Glue.ClassGlueShape | glue-generator/src/lib.rs:114-241 | without a panic, one header and one source entry per virtual method. An event interface adds the adapter class and the placement-new declaration to the header, and the placement-new definition to the source |
| Glue.StructsGlueAbortIff | glue-generator/src/lib.rs:101-105 | the struct pass panics exactly when a `tag*` struct is the last child |
| Glue.StructsGlueDefaults | glue-generator/src/lib.rs:97-111 | every default-value function written is for a typedef directly after a `tag*` struct, and every such typedef gets one |
| Glue.ClassesGlueAbortPersists | glue-generator/src/lib.rs:86-95 | after a class panics, later classes change nothing |
| Glue.NamespacesGlueAbortPersists | glue-generator/src/lib.rs:66-81 | after a namespace panics, later namespaces change nothing |
| Glue.GlueGenerator.constructor | glue-generator/src/lib.rs:34-37 | both output files start empty |
| Glue.GlueGenerator.WriteHpp | glue-generator/src/lib.rs:262-265 | appends the code and CRLF to the header only |
| Glue.GlueGenerator.WriteCpp | glue-generator/src/lib.rs:267-270 | appends the code and CRLF to the source only |
| Glue.GlueGenerator.WriteOutput | glue-generator/src/lib.rs:257-260 | the declaration goes to the header and the definition to the source |
| Glue.GlueGenerator.GeneratePlacementNew | glue-generator/src/lib.rs:243-248 | writes the placement-new declaration and definition |
| Glue.GlueGenerator.GenerateDefaultValue | glue-generator/src/lib.rs:250-255 | writes the default-value declaration and definition |
| Glue.GlueGenerator.WriteForward | glue-generator/src/lib.rs:155-196 | the text built step by step is the forwarding function's declaration, with the brief comment when there is one, and its definition |
| Glue.GlueGenerator.AppendEvent | glue-generator/src/lib.rs:207-229 | the adapter gets this method's callback field and overriding method |
| Glue.GlueGenerator.VisitEventMethod | glue-generator/src/lib.rs:199-206 | in an event interface, a method not named `on…` panics, then one not returning `void` panics, and otherwise it joins the adapter |
| Glue.GlueGenerator.VisitMember | glue-generator/src/lib.rs:136-230 | one member: a panic for an unexpected kind, nothing for a skipped kind or non-virtual method, otherwise its forwarding function and its adapter entries |
| Glue.GlueGenerator.VisitMembers | glue-generator/src/lib.rs:136-231 | the member loop writes the forwarding functions of the members before the first panic, and builds the adapter of their event methods |
| Glue.GlueGenerator.VisitClass | glue-generator/src/lib.rs:114-241 | `visit_class` writes exactly the class's glue, with its adapter and placement-new for an event interface |
| Glue.GlueGenerator.VisitClasses | glue-generator/src/lib.rs:86-95 | the class loop visits every class with members, in order, up to the first panic |
| Glue.GlueGenerator.VisitStructs | glue-generator/src/lib.rs:97-111 | the struct loop writes the default-value functions, and panics on a trailing `tag*` struct |
| Glue.GlueGenerator.VisitNamespace | glue-generator/src/lib.rs:84-112 | all classes first, then the structs, unless a class panicked |
| Glue.GlueGenerator.VisitUnit | glue-generator/src/lib.rs:55-82 | every top-level `ZOOMSDK` namespace is visited in order, up to the first panic |
| Glue.GenerateGlue | glue-generator/src/lib.rs:8-47 | both files start with the notice and their preamble, followed by exactly what visiting the unit writes |
| GlueMain.MainGlueNameInjective | glue-generator/src/main.rs:150-155 | different counts give different glue names |
| GlueMain.Rename | glue-generator/src/main.rs:146-157 | `rename` counts the name just pushed, so every glue name is suffixed, starting at `1`, and never equals the method name |
| GlueMain.MainOverloadGlueNamesDistinct | glue-generator/src/main.rs:146-157 | two occurrences of one name never get the same glue name |
| GlueMain.MainSignatureDeterminesGlueName | glue-generator/src/main.rs:102-112 | for one method, two printed signatures are equal exactly when their glue names are |
| GlueMain.MainMembersFoldOkIff | glue-generator/src/main.rs:84-91 | a class is printed without panic exactly when every member is a method, an access specifier or a destructor |
| GlueMain.MainMembersFoldAbortPersists | glue-generator/src/main.rs:84-91 | after a panic, later members change nothing |
| GlueMain.MainForwardsForAt | glue-generator/src/main.rs:92-117 | the i-th forwarding function is the i-th virtual method's, named by its count of earlier namesakes plus one |
| GlueMain.MainOverloadsGetDistinctGlueNames | glue-generator/src/main.rs:96 | two virtual methods with the same name get different glue functions |
| GlueMain.MainMembersFoldOutput | glue-generator/src/main.rs:84-136 | without a panic, one forwarding function per virtual method, in order |
| GlueMain.ForwardLinesAt | glue-generator/src/main.rs:134-135 | each forwarding function prints its declaration line, then its definition |
| GlueMain.ClassPrintedLines | glue-generator/src/main.rs:78-136 | a class prints `Visit class` and its name, then two lines per virtual method |
| GlueMain.ClassPrintedForward | glue-generator/src/main.rs:102-135 | the k-th virtual method's declaration and definition are lines 2k+1 and 2k+2 |
| GlueMain.TrimSeparatorsSpec | glue-generator/src/main.rs:49 | trimming removes exactly a trailing run of separators |
| GlueMain.LastComponentSpec | glue-generator/src/main.rs:49 | the last component is a separator-free suffix that a separator, or the start, precedes |
| GlueMain.LastComponentOfJoin | glue-generator/src/main.rs:49 | `dir/name` ends with the component `name` |
| GlueMain.AuthNamespaces | glue-generator/src/main.rs:34-49 | the visited namespaces are `ZOOMSDK` namespaces located in `auth_service_interface.h` |
| GlueMain.NamespacesPrintedIsFiltered | glue-generator/src/main.rs:34-61 | what `main` prints is what visiting exactly those namespaces, in order, prints |
| GlueMain.Console.PrintLine | glue-generator/src/main.rs:134-135 | `println!` appends one line |
| GlueMain.PrintForward | glue-generator/src/main.rs:102-135 | the text built step by step is the declaration and the definition, printed in that order |
| GlueMain.VisitMember | glue-generator/src/main.rs:84-135 | one member: a panic for another kind, nothing for a non-virtual method or skipped kind, otherwise its two lines |
| GlueMain.VisitMembers | glue-generator/src/main.rs:84-136 | the member loop prints the lines of the members before the first panic |
| GlueMain.VisitClass | glue-generator/src/main.rs:78-137 | `visit_class` prints exactly the class's lines |
| GlueMain.VisitNamespace | glue-generator/src/main.rs:64-76 | every class with members, in order, up to the first panic |
| GlueMain.VisitTranslationUnit | glue-generator/src/main.rs:34-61 | `main`'s loop prints exactly what the filtered namespaces print, up to the first panic |

## Left out

- The native SDK: `ZOOMSDK_*` functions are a recording stand-in whose replies are parameters. The constant values are abstract tables assumed pairwise distinct.
- `zoom_version` (src/lib.rs:20-26): a native string read and an `unwrap` of its conversion. It is not modelled beyond the wide-string helpers it calls.
- Environment variables (`ZOOM_SDK_KEY`, `ZOOM_SDK_SECRET`, `ZOOM_LOGIN_USER`, `ZOOM_LOGIN_PASS`, `ZOOM_SDK_DIR`, `OUT_DIR`) are parameters. The panics of their `unwrap`/`expect` when unset are not modelled.
- `catch_unwind` in the callback trampolines, the atomicity of `INITIALIZED`, `PhantomData`'s `!Send`, and the aliasing of the boxed closure record are not modelled.
- `src/meeting_ui.rs`, the build script and the examples are outside the model.
- `InitParam` options beyond the ten builder methods (the `TODO` list at src/lib.rs:132) are absent from the source too.
- ZoomSdk.Sdk.CreateAuthService: `AuthService::new` (src/auth.rs:26) takes no argument although src/lib.rs:196 passes `self`. The model follows the call as intended.
- Auth.SetEvent: when `set_event` fails, the registered record is dropped while the native side may still hold its address. The model returns the record but does not model the dangling address.
- Auth.AuthService.New: when registering the events fails, the created native service is never destroyed, because no `AuthService` exists to drop it. The model returns the error and records no destroy call, which is that leak.
- `InitParam` derives `Clone` (src/lib.rs:31). A clone's string pointers still point into the original's cache vectors, so dropping the original leaves the clone dangling. The model holds pointers as values (`Wide(units)`), so `InitParam.Valid()` cannot see this aliasing, and cloning is not modelled.
- The `InitParam` builder methods take `mut self` and return it; the model updates the builder in place, which is the same value flow.
- Fmt.EscapeChar: `{:?}` escaping is modelled for `"`, `\`, line feed, carriage return, tab and NUL. Other non-printable characters and grapheme-extending characters (such as U+0301 COMBINING ACUTE ACCENT, U+200C or U+FE0F), which Rust writes as `\u{…}`, are copied unchanged; this needs Unicode's printable and `Grapheme_Extend` tables, which the model does not carry. Such characters can reach `Display` through the native last-error description (src/error.rs:88-89).
- `{:?}` of libclang entities, and `dbg!`, are not modelled: the `Kind …, Name …, Loc …` line of glue-generator/src/main.rs:50-55 and glue-generator/src/lib.rs:72-77, the text of each `panic!` (only which panic occurred is kept), and the `Not virtual` lines on standard error.
- Parsing with libclang, its arguments and the file creation in `generate_glue` and `main` are inputs or left out. The unparsed unit is the entity tree `Clang.Entity`.
- `unwrap` on a missing name, type or argument list of a libclang entity cannot fail in the model: every entity has them.
- `&cpp_name[prefix_len..]` slices bytes. `on`/`On` is two ASCII bytes, so the model drops two characters.
- Glue.AdapterName: `&class_name[1..]` slices bytes and panics when the first character is not ASCII. The model drops one character and does not model that panic.
- GlueMain.EndsWithComponent: `Path::ends_with` is modelled only for a single-component argument, with `/` and `\` as separators and trailing separators ignored. Windows prefixes and `.` components are not normalised.
- ZoomSdk.InitAgainScenario: its printed refusal text is stated by ZoomSdk.OnlyOneSdkDisplay rather than in its own contract. The two `clean_up` calls on an uninitialized `Sdk` (src/lib.rs:289-290) depend on how the native SDK treats an uninitialized clean-up and are not modelled; the failure of the create after `clean_up_internal` (src/lib.rs:308) is the parameter `failure`, not derived from native state.

## Findings

| source | as written | input that shows it | evidently intended | confidence | as-written member | corrected member |
|---|---|---|---|---|---|---|
| src/lib.rs:182-184 | `clean_up(self)` calls `clean_up_internal` and, on success, lets `self` drop at the end of the call, and `Drop` calls `clean_up_internal` again | `init_sdk()` then `clean_up()` with every native call succeeding: `CleanUPSDK` runs twice, although `clean_up_internal` "must only be called once" | one `CleanUPSDK` per `Sdk` (forget `self` after a successful clean-up) | high, not executed | ZoomSdk.DoubleCleanUpAsWritten | ZoomSdk.SingleCleanUp |
| src/lib.rs:189-193 | `clean_up_internal` clears `INITIALIZED` even when `CleanUPSDK` fails, while `clean_up` hands the `Sdk` back | `clean_up()` with `CleanUPSDK` failing, then `init_sdk()` succeeding: two `Sdk` values are alive at once | the flag stays set while the returned `Sdk` is alive | medium, not executed | ZoomSdk.TwoLiveSdksAsWritten | ZoomSdk.FailedCleanUpKeepsFlag |
