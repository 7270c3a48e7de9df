/**
 * The parts of backend/apis/v1/route_laptop_allocation.py that decide
 * behaviour: the object keys the signed forms are stored under, the order of
 * blob write and record update in the two upload handlers, and the form
 * generator's dispatch, title and file name.
 */
module AllocationRoutes {
  import opened Outcome
  import opened Text
  import opened Tables
  import opened LaptopAllocation
  import opened OrganizationRepo
  import opened ObjectStore
  import opened ObjectKeys

  datatype FormKind = AllocationKind | ReturnKind

  function Folder(kind: FormKind): (folder: string)
    ensures KnownFolder(folder)
  {
    match kind
    case AllocationKind => AllocationForms
    case ReturnKind => ReturnForms
  }

  /** The object name a signed form is stored under. */
  function FormKey(kind: FormKind, allocId: Uuid, token: Uuid, filename: string): string {
    ObjectKey(Folder(kind), allocId, token, filename)
  }

  // ---------------------------------------------------------------------------
  // api_upload_allocation_form and api_upload_return_form

  /** The repository call an upload of this kind ends in. */
  function RecordKey(t: Tables, kind: FormKind, allocId: Uuid, key: string): Step<Allocation> {
    match kind
    case AllocationKind => UploadFormStep(t, allocId, key)
    case ReturnKind => UploadReturnFormStep(t, allocId, key)
  }

  /**
   * The blob is put first, under a key built before anything is looked up; a
   * failed put ends the request with nothing changed. Only then is the record
   * found and updated, so an unknown allocation (or, for a return form, an
   * active one) leaves the blob stored and the record untouched. On success
   * the handler answers with the key now on the record.
   */
  function UploadSpec(t: Tables, objects: map<string, seq<bv8>>, kind: FormKind, allocId: Uuid,
                      token: Uuid, filename: string, data: seq<bv8>, putFails: bool): (u: Upload)
    ensures putFails ==> u == Upload(t, objects, Err(UploadFailed))
    ensures !putFails ==> u.objects == objects[FormKey(kind, allocId, token, filename) := data]
    ensures !putFails && allocId !in t.allocations ==> u.after == t && u.result == Err(NotFound)
    ensures !putFails && kind == ReturnKind && allocId in t.allocations && t.allocations[allocId].isActive ==>
      u.after == t && u.result == Err(Forbidden)
    ensures u.result.Ok? ==>
      && u.result.value == FormKey(kind, allocId, token, filename)
      && u.result.value in u.objects
      && allocId in u.after.allocations
      && (kind == AllocationKind ==> u.after.allocations[allocId].allocationForm == Some(u.result.value))
      && (kind == ReturnKind ==> u.after.allocations[allocId].returnForm == Some(u.result.value))
    ensures u.result.Ok? <==>
      !putFails && allocId in t.allocations && (kind == ReturnKind ==> !t.allocations[allocId].isActive)
  {
    if putFails then Upload(t, objects, Err(UploadFailed))
    else
      var key := FormKey(kind, allocId, token, filename);
      var s := RecordKey(t, kind, allocId, key);
      match s.result
      case Err(e) => Upload(s.after, objects[key := data], Err(e))
      case Ok(a) =>
        Upload(s.after, objects[key := data],
               Ok(if kind == AllocationKind then a.allocationForm.value else a.returnForm.value))
  }

  method UploadSignedForm(db: Db, blobs: BlobStore, kind: FormKind, allocId: Uuid, token: Uuid,
                          filename: string, data: seq<bv8>, putFails: bool) returns (r: Result<string>)
    modifies db, blobs
    ensures Upload(db.State(), blobs.objects, r)
         == UploadSpec(old(db.State()), old(blobs.objects), kind, allocId, token, filename, data, putFails)
  {
    var key := FormKey(kind, allocId, token, filename);
    if putFails {
      return Err(UploadFailed);
    }
    blobs.Put(key, data);
    var updated: Result<Allocation>;
    if kind == AllocationKind {
      updated := UploadForm(db, allocId, key);
    } else {
      updated := UploadReturnForm(db, allocId, key);
    }
    match updated
    case Err(e) => r := Err(e);
    case Ok(a) => r := Ok(if kind == AllocationKind then a.allocationForm.value else a.returnForm.value);
  }

  // ---------------------------------------------------------------------------
  // api_generate_form

  /** form_type.lower() compared with the two accepted names. */
  function FormKindOf(formType: string): (r: Option<FormKind>)
    ensures r == Some(AllocationKind) <==> Lower(formType) == "allocation"
    ensures r == Some(ReturnKind) <==> Lower(formType) == "return"
  {
    if Lower(formType) == "allocation" then Some(AllocationKind)
    else if Lower(formType) == "return" then Some(ReturnKind)
    else None
  }

  /** The dispatch ignores letter case: the form type and its lower-cased or capitalised form agree. */
  lemma {:induction false} FormKindIgnoresCase(formType: string)
    ensures FormKindOf(Lower(formType)) == FormKindOf(formType)
    ensures FormKindOf(Capitalize(formType)) == FormKindOf(formType)
  {
    LowerIdempotent(formType);
    LowerOfCapitalize(formType);
  }

  /** "Laptop " + form_type.capitalize() + " Form". */
  function FormTitle(formType: string): (title: string)
    ensures |title| == |formType| + 12
  {
    "Laptop " + Capitalize(formType) + " Form"
  }

  /** A form type typed as any casing of "allocation" gets the allocation title. */
  lemma {:induction false} AllocationTitle(formType: string)
    requires Lower(formType) == "allocation"
    ensures FormTitle(formType) == "Laptop Allocation Form"
  {
    CapitalizeTypedWord(formType, "allocation");
  }

  /** A form type typed as any casing of "return" gets the return title. */
  lemma {:induction false} ReturnTitle(formType: string)
    requires Lower(formType) == "return"
    ensures FormTitle(formType) == "Laptop Return Form"
  {
    CapitalizeTypedWord(formType, "return");
  }

  /** Whatever the case of the request, an accepted form type yields one of two titles. */
  lemma {:induction false} FormTitleOfAcceptedType(formType: string)
    ensures FormKindOf(formType) == Some(AllocationKind) ==> FormTitle(formType) == "Laptop Allocation Form"
    ensures FormKindOf(formType) == Some(ReturnKind) ==> FormTitle(formType) == "Laptop Return Form"
  {
    if FormKindOf(formType) == Some(AllocationKind) {
      AllocationTitle(formType);
    } else if FormKindOf(formType) == Some(ReturnKind) {
      ReturnTitle(formType);
    }
  }

  function FormFilename(kind: FormKind, username: string): string {
    match kind
    case AllocationKind => username + "_allocation_form.pdf"
    case ReturnKind => username + "_return_form.pdf"
  }

  /** The constant header fields of every generated form. */
  function FormConfig(orgName: string, formType: string): OrgConfig {
    OrgConfig(orgName, FormTitle(formType), "IT-AL-001", "03", "Head of IT", "CONFIDENTIAL")
  }

  datatype FormDownload = FormDownload(pdf: Pdf, filename: string)

  /**
   * The generator once the organisation name is known: look the allocation
   * up, then dispatch on the form type. An unknown form type is refused (406)
   * only after the allocation lookup has succeeded.
   */
  function GenerateFormSpec(t: Tables, orgName: string, allocId: Uuid, formType: string): (r: Result<FormDownload>)
    ensures allocId !in t.allocations ==> r == Err(NotFound)
    ensures allocId in t.allocations && t.allocations[allocId].laptopId !in t.laptops ==> r == Err(Internal)
    ensures r == Err(NotAcceptable) <==>
      allocId in t.allocations && t.allocations[allocId].laptopId in t.laptops && FormKindOf(formType).None?
    ensures r.Ok? ==>
      && allocId in t.allocations
      && FormKindOf(formType).Some?
      && r.value.pdf.config == FormConfig(orgName, formType)
      && t.allocations[allocId].userId in t.users
      && r.value.filename == FormFilename(FormKindOf(formType).value, t.users[t.allocations[allocId].userId].username)
      && (r.value.pdf.payload.AllocationPayload? <==> FormKindOf(formType) == Some(AllocationKind))
    ensures r.Ok? && FormKindOf(formType) == Some(ReturnKind) ==> Truthy(t.allocations[allocId].allocationForm)
    ensures r == Err(Forbidden) ==> FormKindOf(formType) == Some(ReturnKind) && !Truthy(t.allocations[allocId].allocationForm)
  {
    if allocId !in t.allocations then Err(NotFound)
    else
      var a := t.allocations[allocId];
      if a.laptopId !in t.laptops then Err(Internal)
      else
        var config := FormConfig(orgName, formType);
        match FormKindOf(formType)
        case None => Err(NotAcceptable)
        case Some(kind) =>
          var pdf := if kind == AllocationKind then CreateAllocationForm(t, a, config)
                     else CreateReturnForm(t, a, config);
          match pdf
          case Err(e) => Err(e)
          case Ok(p) => Ok(FormDownload(p, FormFilename(kind, t.users[a.userId].username)))
  }

  /** The handler: the organisation name first, then the generator. */
  method GenerateForm(db: Db, allocId: Uuid, formType: string) returns (r: Result<FormDownload>)
    ensures db.organizations == map[] ==> r == Err(Internal)
    ensures db.organizations != map[] ==>
      exists name :: NamesAnOrganization(db.State(), name) && r == GenerateFormSpec(db.State(), name, allocId, formType)
  {
    var orgName := GetOrganizationName(db);
    if orgName.Err? {
      return Err(orgName.error);
    }
    var allocation := ShowAnAllocation(db, allocId);
    if allocation.Err? {
      r := Err(allocation.error);
    } else {
      var a := allocation.value;
      var config := FormConfig(orgName.value, formType);
      var kind := FormKindOf(formType);
      if kind.None? {
        r := Err(NotAcceptable);
      } else {
        var pdf: Result<Pdf>;
        if kind.value == AllocationKind {
          pdf := CreateAllocationForm(db.State(), a, config);
        } else {
          pdf := CreateReturnForm(db.State(), a, config);
        }
        if pdf.Err? {
          r := Err(pdf.error);
        } else {
          r := Ok(FormDownload(pdf.value, FormFilename(kind.value, db.users[a.userId].username)));
        }
      }
    }
    assert r == GenerateFormSpec(db.State(), orgName.value, allocId, formType);
  }
}
