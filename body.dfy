/**
 * The `Body` component of crud-app/src/Body.js as an object: each piece of
 * React state becomes a field, and each handler a method that assigns the
 * fields its `set...` calls assign. A handler's updates are all applied
 * before the next render, so each method states the state after all of them.
 */
module Component {
  import opened Wrappers
  import opened Validation
  import opened Records

  class Body {
    /** The employee list, as loaded from and saved to storage. */
    var data: seq<Employee>
    var firstName: string
    var lastName: string
    var email: string
    /** The age input; `None` when it is empty or holds no number. */
    var age: Option<int>
    /** The gender radio choice; "" when none is selected. */
    var gender: string
    var hobbies: seq<string>
    var phone: string
    var address: string
    /** The id of the record being edited (0 when none). */
    var id: int
    /** Whether the form submits as an update rather than a save. */
    var isUpdate: bool
    /** The messages shown under the inputs. */
    var formErrors: Errors

    /** The form's current values, as `validateInputs` reads them. */
    function Values(): Form
      reads this
    {
      Form(firstName, lastName, email, age, gender, hobbies, phone, address)
    }

    /** Every input empty, no gender chosen, no hobby checked. */
    static const Blank := Form("", "", "", None, "", [], "", "")

    /** Sets every input of the form at once; the rest of the state is kept. */
    method SetValues(f: Form)
      modifies this
      ensures Values() == f
      ensures data == old(data) && id == old(id) && isUpdate == old(isUpdate) && formErrors == old(formErrors)
    {
      firstName, lastName, email, age := f.firstName, f.lastName, f.email, f.age;
      gender, hobbies, phone, address := f.gender, f.hobbies, f.phone, f.address;
    }

    /** The state `handleClear` leaves the form in (the list aside). */
    predicate FormCleared()
      reads this
    {
      && Values() == Blank
      && id == 0 && !isUpdate && formErrors == NoErrors
    }

    /** The component's first render, once the stored list has been loaded. */
    constructor(stored: seq<Employee>)
      ensures data == stored && FormCleared()
    {
      data := stored;
      firstName, lastName, email, age, gender := "", "", "", None, "";
      hobbies, phone, address := [], "", "";
      id, isUpdate, formErrors := 0, false, NoErrors;
    }

    /** `handleClear`: empties every input, leaves edit mode and hides the messages. */
    method Clear()
      modifies this
      ensures data == old(data) && FormCleared()
    {
      SetValues(Blank);
      id, isUpdate, formErrors := 0, false, NoErrors;
    }

    /**
     * `handleSave`: with any message, only shows the messages; otherwise
     * appends a record with the next id and clears the form.
     */
    method Save()
      modifies this
      ensures Validate(old(Values())) != NoErrors ==>
        && formErrors == Validate(old(Values())) && data == old(data)
        && Values() == old(Values()) && id == old(id) && isUpdate == old(isUpdate)
      ensures FormValid(old(Values())) ==>
        && data == old(data) + [NewRecord(NextId(old(data)), old(Values()))]
        && FormCleared()
      ensures IdsIncreasing(old(data)) ==> IdsIncreasing(data)
    {
      var f := Values();
      ValidIffAllChecksPass(f);
      var errors := ValidateInputs(f);
      if errors.Count() > 0 {
        formErrors := errors;
        return;
      }
      var newRecord := NewRecord(NextId(data), f);
      if IdsIncreasing(data) {
        AppendKeepsIdsIncreasing(data, newRecord);
      }
      data := data + [newRecord];
      Clear();
    }

    /** `handleEdit`: loads the record with the id into the form, if there is one. */
    method Edit(recordId: int)
      modifies this
      ensures FindById(old(data), recordId).None? ==>
        && data == old(data) && Values() == old(Values())
        && id == old(id) && isUpdate == old(isUpdate) && formErrors == old(formErrors)
      ensures FindById(old(data), recordId).Some? ==>
        && data == old(data) && Values() == FormOf(FindById(old(data), recordId).value)
        && id == recordId && isUpdate && formErrors == NoErrors
    {
      var found := FindById(data, recordId);
      if found.None? {
        return;
      }
      var record := found.value;
      SetValues(FormOf(record));
      id, isUpdate, formErrors := record.id, true, NoErrors;
    }

    /**
     * `handleUpdate`: with any message, only shows the messages; otherwise
     * gives the record with the edited id the form's values and clears the form.
     */
    method Update()
      modifies this
      ensures Validate(old(Values())) != NoErrors ==>
        && formErrors == Validate(old(Values())) && data == old(data)
        && Values() == old(Values()) && id == old(id) && isUpdate == old(isUpdate)
      ensures FormValid(old(Values())) ==>
        && data == ReplaceById(old(data), old(id), old(Values()))
        && FormCleared()
      ensures IdsIncreasing(old(data)) ==> IdsIncreasing(data)
    {
      var f := Values();
      ValidIffAllChecksPass(f);
      var errors := ValidateInputs(f);
      if errors.Count() > 0 {
        formErrors := errors;
        return;
      }
      data := ReplaceById(data, id, f);
      Clear();
    }

    /** `handleDelete`: once confirmed, drops every record with the id; the form is untouched. */
    method Delete(recordId: int, confirmed: bool)
      modifies this
      ensures data == (if confirmed then RemoveById(old(data), recordId) else old(data))
      ensures Values() == old(Values()) && id == old(id) && isUpdate == old(isUpdate)
      ensures formErrors == old(formErrors)
      ensures IdsIncreasing(old(data)) ==> IdsIncreasing(data)
    {
      if !confirmed {
        return;
      }
      data := RemoveById(data, recordId);
    }

    /** The hobby checkbox's change handler. */
    method SetHobby(hobby: string, checked: bool)
      modifies this`hobbies
      ensures hobbies == ToggleHobby(old(hobbies), hobby, checked)
      ensures hobby in hobbies <==> checked
    {
      hobbies := ToggleHobby(hobbies, hobby, checked);
    }

    /** The form's submit: an update in edit mode, a save otherwise. */
    method Submit()
      modifies this
      ensures !FormValid(old(Values())) ==>
        && formErrors == Validate(old(Values())) && data == old(data)
        && Values() == old(Values()) && id == old(id) && isUpdate == old(isUpdate)
      ensures FormValid(old(Values())) ==>
        && FormCleared()
        && data == if old(isUpdate) then ReplaceById(old(data), old(id), old(Values()))
                   else old(data) + [NewRecord(NextId(old(data)), old(Values()))]
      ensures IdsIncreasing(old(data)) ==> IdsIncreasing(data)
    {
      ValidIffAllChecksPass(Values());
      if isUpdate {
        Update();
      } else {
        Save();
      }
    }
  }
}
