# EchoPath server core in Dafny

This project models two pieces of server-side logic from the EchoPath translation application.

- **User store and credential rules** (`server/auth.py`, module `Auth`). The in-memory users dictionary is keyed by e-mail address. Registration with a password and Google sign-in write to it. Lookup, password login and bearer-token verification read it. The `exp` claim of an access token is computed here.
- **Language routing and lazy model loading** (`server/indictrans_service.py`, module `IndicTrans`). `translate` resolves the client's short codes to IndicTrans2 tags, handling `"auto"` through a language detector. It rejects unsupported codes and picks one of three checkpoints by direction. The service fills its processor, tokenizer and model slots on demand, and `get` keeps a single instance.

Layout:

- `wrappers.dfy`: `Option` for Python's `None`, and `Result` for a call that raises.
- `auth.dfy`: records, the read-only operations as functions over the map, and the store-changing operations as functions of the old store. It holds the `UserStore` class, whose methods update the map in place and are proved against those functions. It also holds lemmas over arbitrary sequences of registrations and Google sign-ins.
- `indictrans.dfy`: the code tables and routing functions. It holds the slot state with its load functions, the `IndicTransService` class (seven option-typed fields, proved against the load functions), and the `ServiceRegistry` class for the `get` singleton.

External pieces enter as parameters:

- bcrypt is a `PasswordHasher` holding a `hash` function value and a `verify` function value. Only lemmas that need it assume `Sound`: every hash is non-empty and verifies against its own password.
- JWT decoding is a `decode: string -> Decoded` function. `Decoded` is `Invalid` or `Claims(sub)`. An expired token or a bad signature decodes to `Invalid`.
- The clock is an integer `now` in seconds.
- The language detector is `detect: string -> Option<string>`. `None` means it raised or is not installed.
- Model inference is an `Inference` oracle. `None` means tokenisation or generation raised.

Behaviour taken from the code rather than from the documentation:

- `create_access_token` tests `if expires_delta:`. A zero `timedelta` is falsy, so it gets the 15-minute default.
- `authenticate_user` tests `not user.hashed_password`. An empty stored hash is rejected like a missing one.
- On blank input, `translate` returns the short codes it was given (possibly `"auto"`), not IndicTrans2 tags. Its docstring promises tags.
- `"auto"` is resolved only on the source side. An `"auto"` target is an unsupported code.

## Model

| member | source | states |
|---|---|---|
| `Auth.GetUser` | server/auth.py:64-68 | a record is returned exactly when the e-mail is a key, and it is the stored record |
| `Auth.AuthenticateUser` | server/auth.py:70-80 | login succeeds iff the e-mail is stored, its provider is not "google", and a non-empty stored hash verifies the password; on success it returns the stored record |
| `Auth.CreateAccessTokenClaims` | server/auth.py:82-91 | the claims are the caller's claims plus `exp`; `exp` is now + delta for a non-zero delta, and now + 900 s when the delta is absent or zero; no other claim changes |
| `Auth.VerifyToken` | server/auth.py:93-118 | succeeds iff the token decodes, has a subject, and the subject is a stored e-mail; it then returns that record; every failure is 401 "Could not validate credentials" |
| `Auth.RejectedTokenIs401` | server/auth.py:95-117 | a token that fails to decode, has no subject, or names an unknown e-mail gets the 401 response |
| `Auth.CreateUserStep` | server/auth.py:120-137 | a taken e-mail gives 400 "Email already registered" and an unchanged store; otherwise exactly one entry is added under that e-mail, with provider "email", active, hash = Hash(password); other entries are unchanged and the public view is returned |
| `Auth.CreateGoogleUserStep` | server/auth.py:168-199 | an existing Google account gets only its name and active flag refreshed; an existing password account gives 400 and an unchanged store; a new e-mail gets a Google account with no password hash; other entries are unchanged |
| `Auth.UserStore.constructor` | server/auth.py:53-54 | the store starts empty and well formed |
| `Auth.UserStore.CreateUser` | server/auth.py:120-137 | the result and the new map are those of `CreateUserStep` on the old map; the store stays well formed; a rejected call leaves it unchanged |
| `Auth.UserStore.CreateGoogleUser` | server/auth.py:168-199 | the result and the new map are those of `CreateGoogleUserStep` on the old map; the store stays well formed; a rejected call leaves it unchanged |
| `Auth.ApplyPreservesWellFormed` | server/auth.py:120-199 | each registration or Google sign-in keeps every record keyed by its own e-mail; Google accounts have no hash and password accounts have one |
| `Auth.RunPreservesWellFormed` | server/auth.py:120-199 | any sequence of registrations and Google sign-ins keeps the store well formed |
| `Auth.RunKeepsAccounts` | server/auth.py:173-188 | later calls never remove an e-mail or change its provider or hash; a password account is never modified at all, so a Google sign-in cannot take it over |
| `Auth.GoogleAccountRejectsPasswords` | server/auth.py:75-77 | a Google account never authenticates with a password, whatever the password |
| `Auth.GoogleSignUpNeverPasswordLogin` | server/auth.py:190-199 | after a new Google sign-up and any later calls, password login on that e-mail fails |
| `Auth.RegisteredUserCanLogIn` | server/auth.py:128-137 | after registration and any later calls, the registered password logs in and returns the record registration stored |
| `Auth.LoginTokenVerifies` | server/main.py:66-77 | the token the login endpoint issues (subject = the user's e-mail, 30 minutes), once decoded, is accepted by the token check for the same user |
| `IndicTrans.ShortToTag` | server/indictrans_service.py:145-146 | a tag is found iff the code is one of the seven supported codes; it is that code's table entry; the tag is "eng_Latn" iff the code is "en" |
| `IndicTrans.DetectorCodesSupported` | server/indictrans_service.py:54-81 | every value of the detector table is a key of the tag table |
| `IndicTrans.AutoDetectShort` | server/indictrans_service.py:148-156 | a known detector code maps through the detector table; an unknown code, a detector error or a missing detector gives "en"; the result is always a supported code |
| `IndicTrans.BlankIffAllSpace` | server/indictrans_service.py:164-165 | text counts as blank (empty, or empty after `strip()`) iff every character is Python whitespace |
| `IndicTrans.SelectDirection` | server/indictrans_service.py:183-200 | exactly one direction is chosen: en to non-en gives en-indic, non-en to en gives indic-en, and every other pair, en to en included, gives indic-indic |
| `IndicTrans.DirectionByCode` | server/indictrans_service.py:183-200 | the same three-way choice, stated on the resolved short codes |
| `IndicTrans.PlanTranslation` | server/indictrans_service.py:164-178 | text short-circuits iff it is blank; otherwise it fails iff the resolved source or the target is not a supported code, with the resolved codes and the sorted supported list; on success the tags are the table entries and the direction is the selected one |
| `IndicTrans.AutoSourceFailsOnlyOnTarget` | server/indictrans_service.py:167-178 | with an "auto" source and non-blank text, translation is rejected iff the target code is unsupported |
| `IndicTrans.SupportedCodesAreSortedKeys` | server/indictrans_service.py:175-177 | the list in the error message holds exactly the tag table's keys, in strictly increasing code-point order |
| `IndicTrans.TranslateResult` | server/indictrans_service.py:256-272 | blank input returns ("", src, tgt) unchanged; a rejected plan raises its error; a routed request succeeds iff inference does, and then returns the model's text with the two tags |
| `IndicTrans.SuccessReturnsTags` | server/indictrans_service.py:170-178 | a successful translation of non-blank text returns exactly the table tags of the resolved source and of the target |
| `IndicTrans.AfterIProc` | server/indictrans_service.py:107-110 | the processor slot is filled if empty, kept if full; no other slot changes |
| `IndicTrans.AfterLoad` | server/indictrans_service.py:112-143 | the chosen direction's tokenizer and model slots are filled, each only if empty, with its own checkpoint; filled slots never change; the other directions' slots and the processor are untouched |
| `IndicTrans.LoadIdempotent` | server/indictrans_service.py:112-143 | loading a direction twice equals loading it once; loading an already loaded direction changes nothing |
| `IndicTrans.AfterPreloadAll` | server/indictrans_service.py:274-279 | after preloading, the processor and all three directions are loaded, and nothing loaded before has changed |
| `IndicTrans.PreloadAllIdempotent` | server/indictrans_service.py:274-279 | preloading a second time changes nothing |
| `IndicTrans.SlotsAfterTranslate` | server/indictrans_service.py:180-200 | blank or rejected requests load nothing; a routed request loads the processor and the chosen direction's pair, and leaves the other directions' slots unchanged |
| `IndicTrans.IndicTransService.constructor` | server/indictrans_service.py:92-99 | all seven slots start empty |
| `IndicTrans.IndicTransService.IProc` | server/indictrans_service.py:107-110 | the new slots are `AfterIProc` of the old ones, and the returned processor is the one in the slot |
| `IndicTrans.IndicTransService.LoadEnIndic` | server/indictrans_service.py:112-121 | the new slots are `AfterLoad` of the old ones for en-indic |
| `IndicTrans.IndicTransService.LoadIndicEn` | server/indictrans_service.py:123-132 | the new slots are `AfterLoad` of the old ones for indic-en |
| `IndicTrans.IndicTransService.LoadIndicIndic` | server/indictrans_service.py:134-143 | the new slots are `AfterLoad` of the old ones for indic-indic |
| `IndicTrans.IndicTransService.PreloadAll` | server/indictrans_service.py:274-285 | the new slots are `AfterPreloadAll` of the old ones, and all three "loaded" flags it reports are true |
| `IndicTrans.IndicTransService.Translate` | server/indictrans_service.py:158-272 | the result is `TranslateResult` of `PlanTranslation`, and the new slots are `SlotsAfterTranslate` of the old ones |
| `IndicTrans.ServiceRegistry.Get` | server/indictrans_service.py:101-105 | with no instance, a fresh service with empty slots is created and kept; otherwise the existing instance is returned and kept; the kept instance always satisfies the service invariant, so it can be used to translate |

## Left out

- Password hashing and verification (bcrypt) are not modelled. They are parameters, and only lemmas that need it assume a hash is non-empty and verifies its own password.
- JWT signing, encoding and decoding (HS256) are not modelled. `CreateAccessTokenClaims` gives the claims that would be signed, and `VerifyToken` takes the decoder as a parameter. Expiry checking lives inside the decoder.
- Time is whole seconds. `datetime` microseconds and time zones are not modelled.
- `verify_google_token` (server/auth.py:139-166) is a network call to Google's token library. Its output is the `GoogleInfo` input to `CreateGoogleUserStep`.
- `get_password_hash` and `verify_password` are one-line wrappers around the hasher; they are the `hash` and `verify` fields of `PasswordHasher`.
- The Pydantic models are datatypes with the same fields. Pydantic's type validation is not modelled. For example, a non-string `sub` claim is not modelled: `Decoded` carries only a string subject or none.
- Model inference in `translate` (server/indictrans_service.py:203-271) is an oracle. This covers preprocessing, tokenisation, `generate`, decoding and postprocessing.
- `langdetect.detect` is an oracle that may fail.
- The constructor's dependency guard (`HAS_INDIC`, server/indictrans_service.py:84-88) is not modelled. Neither is the device choice: the `"device"` entry of `preload_all`'s report is dropped. Print logging is not modelled.
- `warmup` is not modelled. It only wraps `preload_all` and `translate` calls in exception handling and collects their results.
- `is_available` is not modelled. It only returns the import flag `HAS_INDIC`, which the model does not represent.
- AfterLoad: assumes every load succeeds. The same holds for `AfterIProc`, `SlotsAfterTranslate` and the class's `IProc`, `Load*`, `PreloadAll` and `Translate`. In the source, `IndicProcessor(...)`, `AutoTokenizer.from_pretrained` and `AutoModelForSeq2SeqLM.from_pretrained(...).to(device)` can raise (server/indictrans_service.py:109, 114-121, 125-132, 136-143). If the tokenizer loads and the model then raises, that direction is left half loaded, and `translate` raises an exception that is not a ValueError. The model never reaches that state, because loading runs third-party code and touches the file system and network.
- The loaded tokenizers and models are opaque handles that record their checkpoint. Moving a model to a device and `eval()` are not modelled.
- `server/firebase_service.py` and `server/test_firebase.py` are not part of this model. They are Firebase SDK wrappers and environment checks.
- The FastAPI routing in `server/main.py` is not modelled. Only the login composition appears, as the lemma `LoginTokenVerifies`.
- Concurrency is not modelled. The Python dictionary and the singleton are accessed without locks, and the model treats every call as atomic.
