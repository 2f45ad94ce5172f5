/**
 * The people resource (src/app/people.service.ts). In TypeScript
 * `PeopleService` extends `ApiService<Person>`; here it holds the service it
 * extends as `api`, and the inherited requests are `api`'s builders.
 */
module People {
  import opened Wrappers
  import opened Http
  import Api

  /** `Person`: the server assigns `id`; `excel` is never sent by this client. */
  datatype Person = Person(id: Option<int>, name: string, surname: string, excel: Option<File>)

  const PeoplePath := "/people"

  /** The multipart payload for a new person: name, surname, then the spreadsheet. */
  function PersonFormData(person: Person, file: File): (form: FormData)
    ensures FormKeys(form) == ["name", "surname", "excel"]
    ensures FormGet(form, "name") == Some(FieldText(person.name))
    ensures FormGet(form, "surname") == Some(FieldText(person.surname))
    ensures FormGet(form, "excel") == Some(FieldFile(file))
  {
    [FormEntry("name", FieldText(person.name)),
     FormEntry("surname", FieldText(person.surname)),
     FormEntry("excel", FieldFile(file))]
  }

  /** Neither the identifier nor a person's own `excel` field reaches the payload. */
  lemma PayloadIgnoresIdAndExcel(p: Person, q: Person, file: File)
    requires p.name == q.name && p.surname == q.surname
    ensures PersonFormData(p, file) == PersonFormData(q, file)
  {
  }

  class PeopleService {
    const api: Api.ApiService

    /** The service addresses the people collection. */
    ghost predicate Valid()
      reads api
    {
      api.basePath == PeoplePath
    }

    constructor (apiUrl: string)
      ensures fresh(api) && api.apiUrl == apiUrl
      ensures Valid()
    {
      api := new Api.ApiService(apiUrl);
      new;
      api.SetConfig(Api.ApiConfig(PeoplePath));
    }

    /** `createPersonWithFile`: fills a form by three appends and posts it with no endpoint. */
    method CreatePersonWithFile(person: Person, file: File) returns (req: Request)
      ensures req == api.PostFormData(PersonFormData(person, file), None)
    {
      var formData: FormData := [];
      formData := formData + [FormEntry("name", FieldText(person.name))];
      formData := formData + [FormEntry("surname", FieldText(person.surname))];
      formData := formData + [FormEntry("excel", FieldFile(file))];
      req := api.PostFormData(formData, None);
    }
  }

  /** `list()` on the people service targets `apiUrl + "/people"`. */
  lemma ListTargetsPeople(svc: PeopleService)
    requires svc.Valid()
    ensures svc.api.List(None, None).url == svc.api.apiUrl + "/people"
  {
  }

  /** A new person is posted, without a JSON header, to `apiUrl + "/people"`. */
  lemma CreateTargetsPeople(svc: PeopleService, person: Person, file: File)
    requires svc.Valid()
    ensures var r := svc.api.PostFormData(PersonFormData(person, file), None);
      r.verb == POST && r.url == svc.api.apiUrl + "/people" && r.headers == []
  {
  }

  /** `delete(id)` on the people service targets `apiUrl + "/people/" + id`. */
  lemma DeleteTargetsPerson(svc: PeopleService, id: Id)
    requires svc.Valid()
    ensures svc.api.Delete(id, None).url == svc.api.apiUrl + "/people/" + IdText(id)
  {
  }
}
