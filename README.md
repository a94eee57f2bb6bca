# Employee form: validation and record handling

This project models the core of the `Body` component in
`crud-app/src/Body.js`, a React employee form backed by a list of employee
records. It covers:

- the form validator `validateInputs`, which checks eight fields;
- the handlers that save, load for editing, update, delete and clear records;
- the hobby checkbox updater;
- the submit dispatch between save and update.

The model has four modules:

- `Text` (`text.dfy`): the character classes the validator's regexes use,
  and JavaScript's `trim()`. `Wrappers` in the same file holds `Option`.
- `Validation` (`validation.dfy`): the form's values and the validator.
  - `Validate` is the field-by-field specification.
  - `ValidateInputs` is the imperative validator, proved equal to it.
  - `EmailShape` reads the email regex off its pattern. `MatchesEmail`
    decides it by splitting at the first `@`. Lemmas prove the two agree.
- `Records` (`records.dfy`): the stored employee record and the list
  operations the handlers apply. Those are append with the next id,
  `map`-replace by id, `filter`-delete by id, `find` by id, and the hobby
  toggle. Lemmas about them cover:
  - the id order;
  - round trips between a record and the form;
  - what delete and update do to later lookups;
  - id reuse.
- `Component` (`body.dfy`): class `Body`, whose fields are the component's
  React state. Each handler is a method that assigns the fields its `set…`
  calls assign. Each method states the whole state after the handler,
  because React applies a handler's updates together before the next render.
  Save, Update, Delete and Submit also keep the ids strictly increasing.

The next id is the last record's id plus one (`crud-app/src/Body.js:111`),
not the largest id plus one, so deleting the last record lets the next save
hand out that id again. `Records.DeleteLastLowersNextId` and
`Records.DeletedLastIdComesBack` prove this.

## Model

| member | source | states |
|---|---|---|
| Text.TrimStart | crud-app/src/Body.js:57 | the result is a suffix of the input, only whitespace was dropped, and it does not start with whitespace |
| Text.TrimEnd | crud-app/src/Body.js:57 | the result is a prefix of the input, only whitespace was dropped, and it does not end with whitespace |
| Text.Trim | crud-app/src/Body.js:57 | `trim()` returns a slice of the value with only whitespace dropped on either side, and neither end of a non-empty result is whitespace |
| Text.TrimSlice | crud-app/src/Body.js:57 | cutting whitespace off the front and then off the back leaves a slice of the value with only whitespace around it |
| Text.TrimEmptyIffAllSpace | crud-app/src/Body.js:57 | `trim() === ""` holds exactly when every character is whitespace (including the empty value) |
| Validation.MessageText | crud-app/src/Body.js:58-97 | the text of each of the thirteen messages, word for word |
| Validation.IsName | crud-app/src/Body.js:55-59 | `/^[A-Za-z]+$/`: one or more ASCII letters and nothing else |
| Validation.IsPhone | crud-app/src/Body.js:88-91 | `/^\d{10}$/`: exactly ten ASCII digits |
| Validation.EmailShape | crud-app/src/Body.js:71-72 | `/^[^\s@]+@[^\s@]+\.[^\s@]+$/` read off the pattern: a non-empty run without whitespace or `@`, an `@`, a non-empty run, a `.`, a non-empty run |
| Validation.MatchesEmail | crud-app/src/Body.js:71-72 | the regex decided by splitting at the first `@`: a non-empty plain local part, and a plain domain with a `.` that is neither its first nor its last character |
| Validation.IndexOf | crud-app/src/Body.js:72 | the index found holds the character and no earlier index does; no index means the character does not occur |
| Validation.FirstIndex | crud-app/src/Body.js:72 | an occurrence with none before it is the one found |
| Validation.ShapeMatches | crud-app/src/Body.js:72-73 | every value of the shape `local@name.tld` (each part non-empty, free of whitespace and `@`) passes the first-`@` decision procedure |
| Validation.MatchHasShape | crud-app/src/Body.js:72-73 | every value the decision procedure accepts has that shape, with a `.` that has characters on both sides |
| Validation.MatchesEmailIffShape | crud-app/src/Body.js:72-73 | the decision procedure accepts exactly the values the email regex describes |
| Validation.Errors.Count | crud-app/src/Body.js:106 | `Object.keys(errors).length` is at most 8 and is 0 exactly for the empty error object |
| Validation.NameError | crud-app/src/Body.js:57-66 | a name field has a message iff it is not one or more ASCII letters; whitespace only gives "required", anything else failing gives "letters only" |
| Validation.EmailError | crud-app/src/Body.js:68-75 | the email field has a message iff it does not match the regex; whitespace only gives "required", otherwise "invalid" |
| Validation.PhoneError | crud-app/src/Body.js:88-93 | the phone field has a message iff it is not exactly ten digits; whitespace only gives "required", otherwise "invalid" |
| Validation.AddressError | crud-app/src/Body.js:94-98 | the address has no message iff it is not blank after trimming and its untrimmed length is at least 5; blank gives "required", a non-blank value shorter than 5 gives "at least 5 characters" |
| Validation.Validate | crud-app/src/Body.js:53-101 | the error object for a form, field by field: the four field rules above, an age message iff the age is absent or not positive, a gender message iff none is chosen, a hobbies message iff none is checked |
| Validation.FormValid | crud-app/src/Body.js:53-101 | all eight checks pass |
| Validation.BlankFailsShapes | crud-app/src/Body.js:57-95 | a whitespace-only value is never a name, a phone number or an email address, so the "required" branch always also fails the regex |
| Validation.ValidIffAllChecksPass | crud-app/src/Body.js:53-101 | the error object is empty (has no keys) exactly when all eight checks pass: age present and positive, gender chosen, at least one hobby, and so on |
| Validation.CheckName | crud-app/src/Body.js:57-66 | the trim-then-regex branches give the name field's specified message |
| Validation.CheckEmail | crud-app/src/Body.js:68-75 | the trim-then-regex branches give the email field's specified message |
| Validation.CheckPhone | crud-app/src/Body.js:88-93 | the trim-then-regex branches give the phone field's specified message |
| Validation.CheckAddress | crud-app/src/Body.js:94-98 | the trim-then-length branches give the address field's specified message |
| Validation.ValidateInputs | crud-app/src/Body.js:53-101 | the error object built field by field is exactly the specified one |
| Validation.UntrimmedValuesChecked | crud-app/src/Body.js:57-98 | the length test and the regexes see the untrimmed value: " Jane" is "letters only" and "  ab " is an accepted address |
| Validation.SampleEmailHasShape | crud-app/src/Body.js:71-72 | "jane@x.com" has the shape the email regex describes |
| Validation.SampleFieldsPass | crud-app/src/Body.js:55-100 | the example's names are letters only, its phone number is ten digits and its address is not blank |
| Validation.SampleFormIsValid | crud-app/src/Body.js:53-101 | a fully filled-in form gets no message |
| Records.NewRecord | crud-app/src/Body.js:112-122 | the new record has the given id and exactly the form's values |
| Records.WithForm | crud-app/src/Body.js:153-163 | the spread-updated record keeps its id and takes exactly the form's values |
| Records.FormOf | crud-app/src/Body.js:130-141 | the values loaded into the form are exactly the record's |
| Records.FormOfRoundTrip | crud-app/src/Body.js:128-163 | loading a record into the form and building a record from it gives the same record back |
| Records.NextId | crud-app/src/Body.js:111 | the id a save assigns: the last record's id plus one, or 1 for an empty list |
| Records.NextIdAboveAll | crud-app/src/Body.js:111 | with increasing ids, the next id is larger than every id in the list |
| Records.AppendKeepsIdsIncreasing | crud-app/src/Body.js:111-124 | appending a record with the next id keeps the ids strictly increasing |
| Records.SavedRecordIsFound | crud-app/src/Body.js:111-124 | after a save, looking up the new id finds exactly the appended record |
| Records.ReplaceById | crud-app/src/Body.js:151-165 | the list keeps its length, order and ids; records with the id take the form's values; all others are unchanged; an unmatched id changes nothing |
| Records.Filter | crud-app/src/Body.js:173 | the result holds exactly the accepted elements, each as often as before |
| Records.FilterAppend | crud-app/src/Body.js:173 | filtering keeps the order of the list's parts |
| Records.FilterKeepsAll | crud-app/src/Body.js:173 | a filter that accepts every element returns the list unchanged |
| Records.FilterKeepsIdsIncreasing | crud-app/src/Body.js:173 | filtering a list with increasing ids leaves them increasing |
| Records.RemoveById | crud-app/src/Body.js:173 | exactly the records with the id are removed, every other record keeps its count, an absent id changes nothing, and increasing ids stay increasing |
| Records.RemoveByIdAppend | crud-app/src/Body.js:173 | the remaining records keep their original order |
| Records.FindById | crud-app/src/Body.js:129 | the first record with the id is found, or none when no record has it |
| Records.FindAfterRemove | crud-app/src/Body.js:171-174 | after a delete, the id is no longer found |
| Records.UpdateAfterDeleteIsNoOp | crud-app/src/Body.js:151-173 | an update of a deleted id leaves the list unchanged |
| Records.EditThenUpdateUnchanged | crud-app/src/Body.js:128-165 | with increasing ids, editing a record and updating it without changes leaves the list unchanged |
| Records.DeleteLastLowersNextId | crud-app/src/Body.js:111 | after deleting the last record, the next id is no larger than the deleted one, so ids are reused |
| Records.RemoveLastLeavesFront | crud-app/src/Body.js:173 | with increasing ids, deleting the last record's id removes exactly that record and keeps the rest in order |
| Records.DeletedLastIdComesBack | crud-app/src/Body.js:111 | with ids 1 and 2, deleting 2 makes 2 the next id again |
| Records.ToggleHobby | crud-app/src/Body.js:303-307 | the hobby is present iff the box is checked; other hobbies keep their counts; checking appends at the end |
| Records.UncheckKeepsOrder | crud-app/src/Body.js:306 | unchecking keeps the other hobbies in their order |
| Component.Body.constructor | crud-app/src/Body.js:24-43 | the component starts with the stored list, an empty form, no edited id, add mode and no messages |
| Component.Body.Clear | crud-app/src/Body.js:176-188 | every input is empty, the id is 0, the mode is add and there are no messages; the list is kept |
| Component.Body.Save | crud-app/src/Body.js:103-126 | an invalid form only sets the messages. A valid form appends one record with the next id and the form's values, then clears the form. Increasing ids stay increasing |
| Component.Body.Edit | crud-app/src/Body.js:128-142 | a missing id changes nothing. A found record is loaded into the form with its id, update mode is entered and the messages are cleared |
| Component.Body.Update | crud-app/src/Body.js:144-169 | an invalid form only sets the messages. A valid form gives the records with the edited id the form's values, then clears the form. Increasing ids stay increasing |
| Component.Body.Delete | crud-app/src/Body.js:171-174 | without confirmation nothing changes. With it, exactly the records with the id are removed. The form is untouched either way |
| Component.Body.SetHobby | crud-app/src/Body.js:301-307 | the hobby list becomes the toggled list, so the hobby is present iff the box is checked |
| Component.Body.Submit | crud-app/src/Body.js:193 | in update mode the form acts as Update, otherwise as Save |

## Left out

- Storage is not modelled. `getData`, `saveData` and their JSON and storage errors are out, and so are the two effects that load and save (`crud-app/src/Body.js:4-21`, `40-51`). The list loaded at start-up is a constructor parameter, and saving after each change is not modelled.
- `window.confirm` in Delete is user input, so it is the parameter `confirmed`.
- `e.preventDefault()` and the JSX rendering are out. So are the text inputs' `onChange` setters, since each only assigns one field.
- The age is modelled as `Option<int>`, with `None` for an empty or non-numeric input. JavaScript's coercion of the number input's string is not modelled. That covers `!age`, `age <= 0` against a string, and `parseInt` dropping a fractional part.
- `Text.Trim`: the whitespace set is ASCII only. JavaScript's `trim()` and `\s` also treat Unicode spaces and line separators as whitespace, and those are not modelled.
- Validation.AddressError: lengths are counted in characters, not UTF-16 code units, so a character outside the Basic Multilingual Plane counts once here where `address.length` counts it twice; "𝔸𝔹𝔺" gets "at least 5 characters" here and no message in the source. The regex checks are unaffected, because such a character's surrogate pair matches `[^\s@]` twice and matches none of the other classes.
- Letters and digits are ASCII, as in `[A-Za-z]` and `\d` without the `u` flag.
- The error object is a record with one optional message per field, not an object keyed by strings. `Validation.MessageText` gives each message's text.
- `record.gender || ""` and similar defaults in Edit are not modelled. A stored record always has string and list values here, and for those the default changes nothing.
- React's batching of state updates is not modelled. Each method states the state after the handler's updates have all been applied.
