/**
 * The root component (src/app/app.component.ts): a form with two required
 * fields, a drop zone that accepts one spreadsheet, and a table of people.
 *
 * The HTTP client is a log: every request the component subscribes to is
 * appended to `sent`. The transport's answers come back through the
 * `On…Success` / `On…Error` methods, which run what the subscription's
 * `next`, `error` and `complete` callbacks run. Snackbar messages are
 * recorded in `notices`; `console.error` calls are counted in `errorsLogged`.
 */
module App {
  import opened Wrappers
  import opened Http
  import People
  import DataTable

  const XlsxType := "application/vnd.openxmlformats-officedocument.spreadsheetml.sheet"
  const XlsType := "application/vnd.ms-excel"

  const SavedMessage := "The person has been saved"
  const DeletedMessage := "The person has been deleted"
  const DeleteAction := "delete"

  /** `isExcelFile`: one of the two spreadsheet MIME types, whatever the file is called. */
  function IsExcelFile(file: File): (r: bool)
    ensures r <==> file.mime in {XlsxType, XlsType}
  {
    file.mime == XlsxType || file.mime == XlsType
  }

  /** There is no file-name fallback: only the declared type decides. */
  lemma ExcelCheckIgnoresName(a: File, b: File)
    requires a.mime == b.mime
    ensures IsExcelFile(a) == IsExcelFile(b)
  {
  }

  /** The two files of the component's tests, and a spreadsheet name with a text type. */
  lemma ExcelCheckExamples()
    ensures IsExcelFile(File("test.xlsx", XlsxType))
    ensures !IsExcelFile(File("test.txt", "text/plain"))
    ensures !IsExcelFile(File("test.xlsx", "text/plain"))
  {
  }

  /** What a drop or a file pick accepts: the first file, if it is a spreadsheet. */
  function AcceptedFile(files: Option<seq<File>>): (r: Option<File>)
    ensures r.Some? <==> files.Some? && |files.value| > 0 && IsExcelFile(files.value[0])
    ensures r.Some? ==> r.value == files.value[0]
  {
    if files.Some? && |files.value| > 0 && IsExcelFile(files.value[0])
    then Some(files.value[0])
    else None
  }

  /** One entry of `userFields`; every validator list in the source is `[Validators.required]`. */
  datatype FieldSpec = FieldSpec(name: string, placeholder: string, errorMsg: string, required: bool)

  const UserFields: seq<FieldSpec> := [
    FieldSpec("name", "Enter your name", "Name is required", true),
    FieldSpec("surname", "Enter your surname", "Surname is required", true)
  ]

  /** The form's control values; None is the null a reset leaves behind. */
  type Form = map<string, Option<string>>

  /** `Validators.required`: fails on null and on the empty string. */
  function Filled(v: Option<string>): (r: bool)
    ensures r <==> v != None && v != Some("")
  {
    v.Some? && v.value != ""
  }

  /**
   * `userForm.valid`: every configured control exists and passes its
   * validators, which for these fields means both name and surname are filled in.
   */
  function FormValid(form: Form): (valid: bool)
    ensures valid <==>
      "name" in form && "surname" in form && Filled(form["name"]) && Filled(form["surname"])
  {
    assert UserFields[0].name == "name" && UserFields[1].name == "surname";
    forall i :: 0 <= i < |UserFields| ==>
      UserFields[i].name in form && (UserFields[i].required ==> Filled(form[UserFields[i].name]))
  }

  /** The constructor's `forEach`: one control per field, each starting as ''. */
  method BuildForm(fields: seq<FieldSpec>) returns (form: Form)
    ensures forall i :: 0 <= i < |fields| ==> fields[i].name in form
    ensures forall k :: k in form ==> form[k] == Some("")
    ensures forall k :: k in form ==> exists i :: 0 <= i < |fields| && fields[i].name == k
  {
    form := map[];
    for n := 0 to |fields|
      invariant forall i :: 0 <= i < n ==> fields[i].name in form
      invariant forall k :: k in form ==> form[k] == Some("")
      invariant forall k :: k in form ==> exists i :: 0 <= i < n && fields[i].name == k
    {
      form := form[fields[n].name := Some("")];
    }
  }

  /** `userForm.reset()`: every control keeps its place and becomes null. */
  function ResetForm(form: Form): (r: Form)
    ensures r.Keys == form.Keys
    ensures forall k :: k in r ==> r[k] == None
  {
    map k | k in form :: None
  }

  /** A reset form never passes validation, so an immediate resubmit is refused. */
  lemma ResetFormInvalid(form: Form)
    ensures !FormValid(ResetForm(form))
  {
    var r := ResetForm(form);
    var first := UserFields[0];
    if first.name in r {
      assert r[first.name] == None;
    }
    assert !(first.name in r && (first.required ==> Filled(r[first.name])));
  }

  /** `userForm.patchValue(patch)`: existing controls take the patched values; other keys are ignored. */
  function Patched(form: Form, patch: map<string, Option<string>>): (r: Form)
    ensures r.Keys == form.Keys
    ensures forall k :: k in r ==> r[k] == if k in patch then patch[k] else form[k]
  {
    map k | k in form :: if k in patch then patch[k] else form[k]
  }

  /**
   * A control's text, with a missing or null control read as "". In the
   * component a null control would be sent as "null"; the two never differ
   * where it matters, since `onSubmit` builds a person only from a valid
   * form, which has no null controls.
   */
  function FieldValue(form: Form, key: string): string {
    if key in form && form[key].Some? then form[key].value else ""
  }

  /**
   * The person `onSubmit` builds from the form: name and surname only.
   * Only its value on a valid form is the component's; on an invalid form
   * `onSubmit` builds nothing.
   */
  function SubmittedPerson(form: Form): (p: People.Person)
    ensures p.id == None && p.excel == None
    ensures FormValid(form) ==>
      && "name" in form && "surname" in form
      && Some(p.name) == form["name"] && Some(p.surname) == form["surname"]
      && p.name != "" && p.surname != ""
  {
    People.Person(None, FieldValue(form, "name"), FieldValue(form, "surname"), None)
  }

  /** The submit gate: a valid form and a chosen spreadsheet. */
  function CanSubmit(form: Form, selected: Option<File>): (ok: bool)
    ensures ok <==>
      "name" in form && "surname" in form && Filled(form["name"]) && Filled(form["surname"]) && selected.Some?
  {
    FormValid(form) && selected.Some?
  }

  /** `${row.id}`: the identifier a table row names, as the delete URL spells it. */
  function RowId(row: Row): (id: Id)
    ensures "id" in row && row["id"].Num? ==> id == NumId(row["id"].n)
    ensures IdText(id) == TemplateText(if "id" in row then Some(row["id"]) else None)
  {
    if "id" !in row then StrId("undefined")
    else match row["id"]
      case Num(n) => NumId(n)
      case Str(s) => StrId(s)
      case Null => StrId("null")
      case Bool(b) => StrId(if b then "true" else "false")
  }

  const TableColumns: seq<DataTable.Column> := [
    DataTable.Column("name", "Name"),
    DataTable.Column("surname", "Surname"),
    DataTable.Column("seniority", "Seniority"),
    DataTable.Column("yearsOfExperience", "Years of experience"),
    DataTable.Column("availability", "Availability")
  ]

  const TableSettings: DataTable.TableConfig := DataTable.TableConfig(
    Some(true), None, Some([DataTable.ActionButton(DeleteAction, "Delete", DeleteAction)]))

  /** The table the component binds shows its five columns and then the actions. */
  lemma TableShowsActions()
    ensures DataTable.DisplayedColumns(TableColumns, TableSettings) ==
      ["name", "surname", "seniority", "yearsOfExperience", "availability", "actions"]
  {
  }

  class AppComponent {
    const people: People.PeopleService
    var form: Form
    var isDragging: bool
    var selectedFile: Option<File>
    var tableData: seq<Row>
    /** Requests handed to the HTTP client, oldest first. */
    var sent: seq<Request>
    /** Snackbar messages shown, oldest first. */
    var notices: seq<string>
    /** Number of `console.error` calls. */
    var errorsLogged: nat

    constructor (people: People.PeopleService)
      ensures this.people == people
      ensures form == map["name" := Some(""), "surname" := Some("")] && !FormValid(form)
      ensures !isDragging && selectedFile == None && tableData == []
      ensures sent == [] && notices == [] && errorsLogged == 0
    {
      this.people := people;
      var f := BuildForm(UserFields);
      assert UserFields[0].name in f && UserFields[1].name in f;
      assert f == map["name" := Some(""), "surname" := Some("")];
      form := f;
      isDragging, selectedFile, tableData := false, None, [];
      sent, notices, errorsLogged := [], [], 0;
    }

    /** The request `listData()` subscribes to: `peopleService.list()`. */
    function ListRequest(): (r: Request)
      reads people.api
      ensures r.verb == GET && r.body == NoBody && r.params == None
      ensures r.url == people.api.apiUrl + people.api.basePath
    {
      people.api.List(None, None)
    }

    /** `ngOnInit`: loads the table. */
    method NgOnInit()
      modifies this`sent
      ensures sent == old(sent) + [ListRequest()]
    {
      sent := sent + [ListRequest()];
    }

    /** A list response replaces the rows wholesale. */
    method OnListSuccess(rows: seq<Row>)
      modifies this`tableData
      ensures tableData == rows
    {
      tableData := rows;
    }

    /** A failed list is logged; the rows on screen stay. */
    method OnListError()
      modifies this`errorsLogged
      ensures errorsLogged == old(errorsLogged) + 1
    {
      errorsLogged := errorsLogged + 1;
    }

    method OnDragOver()
      modifies this`isDragging
      ensures isDragging
    {
      isDragging := true;
    }

    method OnDragLeave()
      modifies this`isDragging
      ensures !isDragging
    {
      isDragging := false;
    }

    /** `onDrop`: ends the drag; `files` is None when the event carries no data transfer. */
    method OnDrop(files: Option<seq<File>>)
      modifies this`isDragging, this`selectedFile
      ensures !isDragging
      ensures selectedFile == if AcceptedFile(files).Some? then AcceptedFile(files) else old(selectedFile)
    {
      isDragging := false;
      if files.Some? && |files.value| > 0 {
        var file := files.value[0];
        if IsExcelFile(file) {
          selectedFile := Some(file);
        }
      }
    }

    /** `onFileSelected`: `files` is None when the input has no file list. */
    method OnFileSelected(files: Option<seq<File>>)
      modifies this`selectedFile
      ensures selectedFile == if AcceptedFile(files).Some? then AcceptedFile(files) else old(selectedFile)
    {
      if files.Some? && |files.value| > 0 {
        var file := files.value[0];
        if IsExcelFile(file) {
          selectedFile := Some(file);
        }
      }
    }

    /** The user filling in the form, as `userForm.patchValue`. */
    method PatchValue(patch: map<string, Option<string>>)
      modifies this`form
      ensures form == Patched(old(form), patch)
    {
      form := Patched(form, patch);
    }

    /** `onSubmit`: one create request when the gate opens, nothing otherwise. */
    method OnSubmit()
      modifies this`sent
      ensures CanSubmit(form, selectedFile) ==>
        sent == old(sent) + [people.api.PostFormData(
          People.PersonFormData(SubmittedPerson(form), selectedFile.value), None)]
      ensures !CanSubmit(form, selectedFile) ==> sent == old(sent)
    {
      if FormValid(form) && selectedFile.Some? {
        var person := SubmittedPerson(form);
        var req := people.CreatePersonWithFile(person, selectedFile.value);
        sent := sent + [req];
      }
    }

    /** A created person: reload, clear the file, reset the form, then the `complete` message. */
    method OnCreateSuccess()
      modifies this`sent, this`selectedFile, this`form, this`notices
      ensures sent == old(sent) + [ListRequest()]
      ensures selectedFile == None && form == ResetForm(old(form))
      ensures notices == old(notices) + [SavedMessage]
      ensures !CanSubmit(form, selectedFile)
    {
      sent := sent + [ListRequest()];
      selectedFile := None;
      form := ResetForm(form);
      ResetFormInvalid(old(form));
      notices := notices + [SavedMessage];
    }

    /** A failed create is logged; form and file stay as they were. */
    method OnCreateError()
      modifies this`errorsLogged
      ensures errorsLogged == old(errorsLogged) + 1
    {
      errorsLogged := errorsLogged + 1;
    }

    /** `handleTableAction`: only "delete" does anything. */
    method HandleTableAction(action: string, row: Row)
      modifies this`sent
      ensures sent == if action == DeleteAction
        then old(sent) + [people.api.Delete(RowId(row), None)]
        else old(sent)
    {
      if action == DeleteAction {
        sent := sent + [people.api.Delete(RowId(row), None)];
      }
    }

    /** A deleted person: one reload, then the `complete` message. */
    method OnDeleteSuccess()
      modifies this`sent, this`notices
      ensures sent == old(sent) + [ListRequest()]
      ensures notices == old(notices) + [DeletedMessage]
    {
      sent := sent + [ListRequest()];
      notices := notices + [DeletedMessage];
    }

    method OnDeleteError()
      modifies this`errorsLogged
      ensures errorsLogged == old(errorsLogged) + 1
    {
      errorsLogged := errorsLogged + 1;
    }
  }

  /** The listing scenarios of the component's tests, played against the model. */
  method ListingScenario(apiUrl: string)
  {
    var service := new People.PeopleService(apiUrl);
    var app := new AppComponent(service);
    app.NgOnInit();
    People.ListTargetsPeople(service);
    assert app.sent == [service.api.List(None, None)];
    assert app.sent[0].url == apiUrl + "/people";
    var john: Row := map["id" := Num(1), "name" := Str("John"), "surname" := Str("Doe"),
      "seniority" := Str("Senior"), "yearsOfExperience" := Num(5), "availability" := Bool(true)];
    app.OnListSuccess([john]);
    assert app.tableData == [john];
    app.OnListError();
    assert app.tableData == [john] && app.errorsLogged == 1;
  }

  /** Dropping a text file, then a spreadsheet. */
  method DropScenario(apiUrl: string)
  {
    var service := new People.PeopleService(apiUrl);
    var app := new AppComponent(service);
    app.OnDragOver();
    assert app.isDragging;
    var text := File("test.txt", "text/plain");
    app.OnDrop(Some([text]));
    assert app.selectedFile == None && !app.isDragging;
    var sheet := File("test.xlsx", XlsxType);
    app.OnDrop(Some([sheet]));
    assert app.selectedFile == Some(sheet);
  }

  /** Submitting an empty form, then a filled one. */
  method SubmitScenario(apiUrl: string)
  {
    var service := new People.PeopleService(apiUrl);
    var app := new AppComponent(service);
    var sheet := File("test.xlsx", XlsxType);
    app.OnFileSelected(Some([sheet]));
    app.OnSubmit();
    assert app.sent == [];
    var filled: Form := map["name" := Some("John"), "surname" := Some("Doe")];
    app.PatchValue(filled);
    assert app.form == filled;
    app.OnSubmit();
    assert |app.sent| == 1;
    People.CreateTargetsPeople(service, SubmittedPerson(filled), sheet);
    assert app.sent[0].url == apiUrl + "/people";
  }

  /** After a successful create, submitting again sends nothing. */
  method ResubmitScenario(apiUrl: string)
  {
    var service := new People.PeopleService(apiUrl);
    var app := new AppComponent(service);
    app.OnFileSelected(Some([File("test.xlsx", XlsxType)]));
    app.PatchValue(map["name" := Some("John"), "surname" := Some("Doe")]);
    app.OnCreateSuccess();
    assert app.selectedFile == None && app.notices == [SavedMessage];
    var before := app.sent;
    app.OnSubmit();
    assert app.sent == before;
  }

  /** A delete on the row with id 1; any other action does nothing. */
  method DeleteScenario(apiUrl: string)
  {
    var service := new People.PeopleService(apiUrl);
    var app := new AppComponent(service);
    var row: Row := map["id" := Num(1)];
    app.HandleTableAction("edit", row);
    assert app.sent == [];
    app.HandleTableAction(DeleteAction, row);
    People.DeleteTargetsPerson(service, NumId(1));
    assert app.sent == [service.api.Delete(NumId(1), None)];
    assert app.sent[0].url == apiUrl + "/people/1";
    app.OnDeleteSuccess();
    assert |app.sent| == 2 && app.notices == [DeletedMessage];
  }
}
