# Customer screen controller (App Gestão Cliente)

A Dafny model of the one piece of logic in the single-screen Android app that
manages the "Clientes" collection of a Firestore database: the state machine
behind the customer form and list in the `App` composable of
`MainActivity.kt`.

The composable keeps seven state variables: the form fields `nome`,
`telefone` and `email`, the listed records `clientes`, the record being edited
`editandoClienteId` (absent in create mode), the phone error flag
`telefoneErro` and the "Salvando..." indicator `salvando`. User actions and
the listeners of the remote calls change them.

- `wrappers.dfy`: `Option`.
- `clientes.dfy` (module `Clientes`): the `Cliente` record, a read document,
  the document-to-record mapping of `lerClientes`, the three-field map every
  write sends, and the phone rule `ValidarTelefone`.
- `gateway.dfy` (module `Gateway`): the four remote calls as `Request` values
  (`ReadAll`, `Create`, `Update`, `Delete`). It also holds a reference model of
  the collection as a map from id to fields, and the predicate `Lists` for
  "one possible answer of a read". These state what is read back after a
  successful add, set or delete.
- `formspec.dfy` (module `FormSpec`): the seven variables as a `Snapshot`
  value, one transition function per action or outcome, and the lemmas
  about them.
- `screen.dfy` (module `Screen`): class `App` with the seven variables as
  fields. It has one method per user action and per completion event. Every
  method that changes the state is proved to move `State()` exactly as its
  `FormSpec` transition says; the others are proved to leave it as it was.
  A method that would start a remote call returns it as a `Request`. Its outcome
  comes later as a call of the matching `On...` method. The class accepts these
  calls in any order, which is more orders than the app can produce (see the
  line on races under "Left out").

Where the code behaves in a surprising way, the model follows the code:

- Clearing the form does not lower `telefoneErro`.
- Starting an edit does not recompute `telefoneErro` from the record's phone.
- Submit checks only the flag. At start-up, or after a clear with the flag down, an empty phone is submitted.
- `salvando` is lowered on completion only for an add. The set call has no
  completion listener, so in edit mode only the display timeout lowers it.
- A write success issues a read and resets the form at once. The list itself
  changes only when that read answers (`OnRefreshSuccess`).
  `RefreshAndClearCommute` shows that the order of the two does not matter.

## Model

| member | source | states |
|---|---|---|
| `Clientes.ToCliente` | app/src/main/java/com/example/appfirebase/MainActivity.kt:84-91 | the record keeps the document id; each of nome, telefone, email is the document's string field, or "" when the field is missing |
| `Clientes.ToClientes` | app/src/main/java/com/example/appfirebase/MainActivity.kt:84-91 | one record per document, same length, same order, each built by `ToCliente` |
| `Clientes.DocumentFields` | app/src/main/java/com/example/appfirebase/MainActivity.kt:243-247 | a write carries exactly the keys nome, telefone, email, and such a document reads back under any id as the record with those three values |
| `Clientes.AllDigits` | app/src/main/java/com/example/appfirebase/MainActivity.kt:191 | true iff every character is a digit (so true of "") |
| `Clientes.ValidarTelefone` | app/src/main/java/com/example/appfirebase/MainActivity.kt:129-131 | valid iff only digits and length at least 8; the empty phone is invalid |
| `Gateway.Apply` | app/src/main/java/com/example/appfirebase/MainActivity.kt:100-248 | the delete (line 100), set (line 117) and add (line 248) calls: add creates the document under a new id, set replaces the whole document at its id, delete removes it; every other document is untouched |
| `Gateway.ListedIdsUnique` | app/src/main/java/com/example/appfirebase/MainActivity.kt:80-92 | a list read from the collection has pairwise distinct ids and one record per stored document |
| `Gateway.StoredIsListed` | app/src/main/java/com/example/appfirebase/MainActivity.kt:81-91 | a read of the collection lists the record of every stored document |
| `Gateway.WrittenIsListed` | app/src/main/java/com/example/appfirebase/MainActivity.kt:243-253 | after a successful add or set of the three fields, the next read lists the record with those fields under the written id |
| `Gateway.UpdateReplacesWhole` | app/src/main/java/com/example/appfirebase/MainActivity.kt:111-117 | after a successful set, every listed record with that id is exactly the written record |
| `Gateway.DeletedIsNotListed` | app/src/main/java/com/example/appfirebase/MainActivity.kt:99-104 | after a successful delete, the next read lists no record with that id, lists the record of every other document, and has one record per remaining document |
| `FormSpec.Initial` | app/src/main/java/com/example/appfirebase/MainActivity.kt:63-69 | empty form in create mode, empty list, both flags down |
| `FormSpec.Count` | app/src/main/java/com/example/appfirebase/MainActivity.kt:163 | the number in the header is the length of the list |
| `FormSpec.IsEmpty` | app/src/main/java/com/example/appfirebase/MainActivity.kt:297 | the "Nenhum cliente cadastrado." placeholder shows iff the list is empty |
| `FormSpec.SubmitLabel` | app/src/main/java/com/example/appfirebase/MainActivity.kt:268 | "Atualizar Cliente" iff a record is being edited, "Cadastrar Cliente" iff not |
| `FormSpec.Cleared` | app/src/main/java/com/example/appfirebase/MainActivity.kt:72-77 | empty fields, create mode, label "Cadastrar Cliente"; list, error flag and saving flag unchanged |
| `FormSpec.NomeEdited` | app/src/main/java/com/example/appfirebase/MainActivity.kt:174 | the name becomes the typed value; nothing else changes |
| `FormSpec.EmailEdited` | app/src/main/java/com/example/appfirebase/MainActivity.kt:222 | the email becomes the typed value; nothing else changes |
| `FormSpec.PhoneEdited` | app/src/main/java/com/example/appfirebase/MainActivity.kt:190-195 | a value with a non-digit changes nothing; a digit-only value becomes the phone, and the flag is up iff it is shorter than 8; no other variable changes |
| `FormSpec.StartEdit` | app/src/main/java/com/example/appfirebase/MainActivity.kt:328-333 | the record's three fields fill the form, the form targets its id, the label is "Atualizar Cliente"; list and both flags unchanged |
| `FormSpec.SubmitRequest` | app/src/main/java/com/example/appfirebase/MainActivity.kt:235-248 | no call iff the error flag is up; otherwise a set on the edited id in edit mode or an add in create mode, of exactly the form's three fields |
| `FormSpec.AfterSubmit` | app/src/main/java/com/example/appfirebase/MainActivity.kt:236-238 | blocked: nothing changes; otherwise only the saving flag changes, and it goes up |
| `FormSpec.Refreshed` | app/src/main/java/com/example/appfirebase/MainActivity.kt:83-92 | the list is replaced wholesale by the mapped documents, in order; nothing else changes |
| `FormSpec.SavingCleared` | app/src/main/java/com/example/appfirebase/MainActivity.kt:257-259 | the saving flag goes down; nothing else changes |
| `FormSpec.ClearIdempotent` | app/src/main/java/com/example/appfirebase/MainActivity.kt:72-77 | clearing twice equals clearing once |
| `FormSpec.StartEditThenClear` | app/src/main/java/com/example/appfirebase/MainActivity.kt:328-333 | start-edit then clear equals clear alone, whatever the record: empty form in create mode |
| `FormSpec.DigitEditFlagsInvalid` | app/src/main/java/com/example/appfirebase/MainActivity.kt:193 | after a digit-only edit the error flag is exactly "the phone fails the rule" |
| `FormSpec.ValidPhoneUnblocksSubmit` | app/src/main/java/com/example/appfirebase/MainActivity.kt:192-193 | once a valid phone is typed, submit issues a call |
| `FormSpec.EmptyPhoneSubmittedAtStart` | app/src/main/java/com/example/appfirebase/MainActivity.kt:236 | the guard tests only the flag: at start-up an add with an empty (invalid) phone is issued |
| `FormSpec.ClearKeepsSubmitBlocked` | app/src/main/java/com/example/appfirebase/MainActivity.kt:72-77 | with the flag up, a clear empties the form but submit stays blocked |
| `FormSpec.StartEditKeepsSubmitBlocked` | app/src/main/java/com/example/appfirebase/MainActivity.kt:329-332 | with the flag up, starting an edit keeps submit blocked whatever the record's phone |
| `FormSpec.RefreshAndClearCommute` | app/src/main/java/com/example/appfirebase/MainActivity.kt:118-122 | applying the read answer before or after the form reset gives the same state |
| `FormSpec.RefreshedCount` | app/src/main/java/com/example/appfirebase/MainActivity.kt:163 | after a read the header count is the number of documents, and the "Nenhum cliente" placeholder (line 297) shows iff there were none |
| `FormSpec.CreatePathLowersSaving` | app/src/main/java/com/example/appfirebase/MainActivity.kt:249-259 | in create mode the success listener and the failure listener each leave the flag up; the completion listener lowers it, and afterwards the state is the pre-submit state with the form cleared (success) or untouched (failure) and the flag down |
| `FormSpec.UpdatePathKeepsSaving` | app/src/main/java/com/example/appfirebase/MainActivity.kt:117-125 | in edit mode submit issues a set, and the flag stays up after its success and after each of two following reads; only the timeout lowers it |
| `FormSpec.CreateRoundTrip` | app/src/main/java/com/example/appfirebase/MainActivity.kt:243-253 | add, success, read: the list holds the submitted record under its new id and the form is an empty create form |
| `FormSpec.UpdateRoundTrip` | app/src/main/java/com/example/appfirebase/MainActivity.kt:111-121 | edit `c`, submit unchanged: a set of `c`'s fields on `c.id`, and after its success and the read that follows, the list holds `c` and every record with `c.id` is exactly `c` |
| `FormSpec.DeleteRoundTrip` | app/src/main/java/com/example/appfirebase/MainActivity.kt:99-104 | delete `c`, success, read: no listed record has `c`'s id, and the count is the number of remaining documents |
| `Screen.App.constructor` | app/src/main/java/com/example/appfirebase/MainActivity.kt:63-69 | the seven variables start as `Initial` |
| `Screen.App.OnLaunch` | app/src/main/java/com/example/appfirebase/MainActivity.kt:133-135 | the first composition issues one read |
| `Screen.App.LimparCampos` | app/src/main/java/com/example/appfirebase/MainActivity.kt:72-77 | the state moves by `Cleared` |
| `Screen.App.OnNomeChange` | app/src/main/java/com/example/appfirebase/MainActivity.kt:174 | the state moves by `NomeEdited` |
| `Screen.App.OnTelefoneChange` | app/src/main/java/com/example/appfirebase/MainActivity.kt:190-195 | the state moves by `PhoneEdited` |
| `Screen.App.OnEmailChange` | app/src/main/java/com/example/appfirebase/MainActivity.kt:222 | the state moves by `EmailEdited` |
| `Screen.App.OnEditClick` | app/src/main/java/com/example/appfirebase/MainActivity.kt:328-333 | the state moves by `StartEdit` |
| `Screen.App.OnDeleteClick` | app/src/main/java/com/example/appfirebase/MainActivity.kt:337-339 | issues one delete on the record's id and changes nothing |
| `Screen.App.OnSubmitClick` | app/src/main/java/com/example/appfirebase/MainActivity.kt:235-260 | returns `SubmitRequest` of the old state and moves the state by `AfterSubmit` |
| `Screen.App.OnRefreshSuccess` | app/src/main/java/com/example/appfirebase/MainActivity.kt:83-92 | the state moves by `Refreshed` |
| `Screen.App.OnRefreshFailure` | app/src/main/java/com/example/appfirebase/MainActivity.kt:93-95 | nothing changes: the stale list stays |
| `Screen.App.OnWriteSuccess` | app/src/main/java/com/example/appfirebase/MainActivity.kt:118-122 | issues one read and moves the state by `Cleared` (the add listener at lines 249-253 does the same) |
| `Screen.App.OnWriteFailure` | app/src/main/java/com/example/appfirebase/MainActivity.kt:123-125 | nothing changes: form, edit target and list stay for a retry |
| `Screen.App.OnCreateComplete` | app/src/main/java/com/example/appfirebase/MainActivity.kt:257-259 | the state moves by `SavingCleared` |
| `Screen.App.OnSavingTimeout` | app/src/main/java/com/example/appfirebase/MainActivity.kt:288-293 | fires only while the flag is up; the state moves by `SavingCleared` |
| `Screen.App.OnDeleteSuccess` | app/src/main/java/com/example/appfirebase/MainActivity.kt:101-104 | issues exactly one read and changes nothing else |
| `Screen.App.OnDeleteFailure` | app/src/main/java/com/example/appfirebase/MainActivity.kt:105-107 | nothing changes |
| `Screen.EditClearSubmit` | app/src/main/java/com/example/appfirebase/MainActivity.kt:275-276 | on the class: edit, clear, submit leaves an empty create form, and adds an empty record unless the flag was already up |

## Left out

- Compose layout, styling, icons and the rendering of the list and of the count text: presentation only. The count and the empty placeholder are modelled as `Count` and `IsEmpty`.
- The Firebase SDK, `FirebaseApp.initializeApp` and `MainActivity.onCreate`: a foreign network client. Each remote call is a returned `Request`, and each of its outcomes is an event method.
- Logging in the failure and success listeners: a side effect that touches no state.
- The 3-second delay and coroutine scheduling: only the transition "timeout fired" is modelled. The restart of the timer when `salvando` goes down and up again is not modelled.
- Races between overlapping calls, and the pairing of an outcome with its call: the class accepts any order of event calls, including orders the app cannot produce (an outcome with no call in flight, or `OnCreateComplete` after a set, whose call has no completion listener). It does not track which calls are in flight.
- The store's internals: `Gateway.Apply` is a reference model of the collection. The real ordering of a read's answer is left open, as `Lists` accepts any order. The ids the store assigns are a parameter.
- Document fields that are present but not strings: `getString` throws on them, which would crash the listener. Documents are modelled with string-valued fields only.
- `Clientes.IsDigit`: accepts only ASCII '0' to '9'. Kotlin's `Char.isDigit` also accepts the other Unicode decimal digits (category Nd), whose table depends on the platform's Unicode version. `AllDigits`, `ValidarTelefone` and the phone filter inherit this.
- Kotlin string length counts UTF-16 code units, and Dafny counts characters. The two agree on every phone the filter accepts.
