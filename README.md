# Invensys asset ledger in Dafny

A model of the repository layer of the Invensys back end, a small FastAPI
service that tracks an organisation's laptops. The laptops are handed to
users through allocation records, taken back, and documented by signed
allocation and return forms. The model also covers purchase (procurement)
records with their audit log, users, accessories, departments, business
units, organisations and repair history. Around the repository layer it
models the start-up seeding, the route-level pieces that build object keys,
form titles and file names, the date formatter used on the forms, and the
password validators.

How the model is built:

- **The store.** `Tables.Db` is a class with one field per database table:
  - maps from the row's UUID to the row;
  - sequences for the serial-keyed status table and audit log.

  `Db.State()` bundles the fields into the value `Tables`.
- **State-changing operations.** Each is written twice:
  - a function `XxxStep(t, …)` that says what the one commit leaves behind (`Step(after, result)`);
  - a method on `Db` that reassigns the fields in place and is proved equal to that function.
- **All or nothing.** Every repository call commits once, so an error before
  the commit leaves the tables unchanged. An error raised after the commit
  keeps its changes; the model says so where that happens.
- **Read-only operations** are methods without `modifies`.
- **Outcomes.** HTTP errors become `Outcome.Error`. `NotFound`, `Forbidden`,
  `Conflict`, `Unauthorized`, `NotAcceptable`, `UploadFailed` and
  `Unprocessable` are the status codes the code raises. `Internal` stands for
  an unhandled exception: an attribute read on `None`, a query that returns
  several rows to `scalar_one_or_none`, or a reused primary key.
- **Parameters.** Fresh UUIDs, `datetime.now()`, the random part of object
  keys, the password-hash check and the blob-store failure are all parameters.

## Model

| member | source | states |
|---|---|---|
| Text.Lower | backend/db/repository/laptop_detail.py:21 | str.lower keeps the length, lowers every letter and leaves no capital |
| Text.LowerIdempotent | backend/db/repository/department.py:20 | lower-casing twice is lower-casing once |
| Text.Capitalize | backend/apis/v1/route_laptop_allocation.py:607 | str.capitalize: first character upper-cased, the rest lower-cased, length kept |
| Text.LowerOfCapitalize | backend/apis/v1/route_laptop_allocation.py:607-620 | the title's capitalised form type lower-cases to the same text as the form type the dispatch compares |
| Text.CapitalizeOfLower | backend/apis/v1/route_laptop_allocation.py:607 | str.capitalize gives the same text whichever case the input was typed in |
| Dates.DaysInMonth | backend/core/form_pdf_generator.py:19 | Gregorian month lengths: 28 to 31 days, 31 exactly for January, March, May, July, August, October and December, 28 exactly for February of a common year |
| Dates.Pad4 | backend/core/form_pdf_generator.py:17 | a year rendered as four digits reads back as the same number |
| Dates.DayMonthYear | backend/core/form_pdf_generator.py:17 | "DD-MM-YYYY": ten characters, day, month and year digits in their places, hyphens at 2 and 5 |
| Dates.ParseIsoDate | backend/core/form_pdf_generator.py:19 | strptime "%Y-%m-%d": success only on 8 to 10 characters naming a valid calendar date |
| Dates.ParseIsoDateRoundTrip | backend/core/form_pdf_generator.py:19 | a valid date written as YYYY-MM-DD parses back to the same year, month and day |
| Dates.FormatDate | backend/core/form_pdf_generator.py:13-21 | a falsy input gives "" and only it does; a datetime gives DD-MM-YYYY; an unparseable string comes back unchanged |
| Dates.FormatIsoDate | backend/core/form_pdf_generator.py:18-19 | a valid YYYY-MM-DD string is reordered to DD-MM-YYYY of the same day |
| Dates.FormatStrOfDateTimeUnchanged | backend/core/form_pdf_generator.py:18-21 | str() of a datetime has a time part, so it is returned unchanged |
| Dates.FormatCommonYearLeapDay | backend/core/form_pdf_generator.py:18-21 | "2023-02-29" is not a date and comes back unchanged |
| Dates.FormatLeapYearLeapDay | backend/core/form_pdf_generator.py:18-19 | "2024-02-29" becomes "29-02-2024" |
| Tables.CountOf | backend/db/repository/laptop_allocation.py:40-42 | counts the status rows with a name; zero exactly when no row has it |
| Tables.StatusIdOf | backend/db/repository/laptop_allocation.py:40-43 | a status id exists exactly when one row has the name; it is that row's serial id and no other row has the name |
| Tables.DistinctNamesResolve | backend/db/repository/laptop_allocation.py:40-43 | in a status table without repeats every stored name resolves |
| Tables.LookupOf | backend/db/repository/user.py:56-57 | scalar_one_or_none: no row gives Missing, one row gives that row, several give Duplicated |
| Tables.FindUser | backend/db/repository/user.py:56-57 | the user lookup by username: Missing exactly when no user has the name, and a found user has it |
| Tables.SameUsernameSameLookup | backend/db/repository/user.py:189 | rewriting a user's row without renaming it changes no username lookup |
| Tables.LookUpUser | backend/db/repository/user.py:56-57 | the lookup as a query on the store agrees with FindUser |
| Tables.Db.constructor | backend/db/seed.py:18-21 | the store starts with every table empty |
| LaptopAllocation.CreateAllocationStep | backend/db/repository/laptop_allocation.py:20-62 | a missing laptop, a missing or repeated "Allocated" row, or a reused key fails and changes nothing. Otherwise exactly one active record is added with the request's fields and the actor as allocator, the laptop shows "Allocated", and nothing else changes. The call fails after its commit when the allocator or the user is missing |
| LaptopAllocation.CreateAllocation | backend/db/repository/laptop_allocation.py:20-62 | the in-place create leaves the tables and result CreateAllocationStep gives |
| LaptopAllocation.ReturnLaptopStep | backend/db/repository/laptop_allocation.py:117-158 | an unknown id gives NotFound and changes nothing. A missing laptop, "Available" row, actor or user gives an internal error and changes nothing. Otherwise the record becomes inactive with the four return fields set and is otherwise unchanged, and the laptop shows "Available". Whether the record was active is never checked |
| LaptopAllocation.ReturnLaptop | backend/db/repository/laptop_allocation.py:117-158 | the in-place return agrees with ReturnLaptopStep |
| LaptopAllocation.UploadFormStep | backend/db/repository/laptop_allocation.py:160-181 | NotFound for an unknown id; otherwise allocation_form is set to the key, replacing any earlier one, whatever the record's activity |
| LaptopAllocation.UploadForm | backend/db/repository/laptop_allocation.py:160-181 | the in-place upload agrees with UploadFormStep |
| LaptopAllocation.UploadReturnFormStep | backend/db/repository/laptop_allocation.py:214-241 | NotFound for an unknown id, Forbidden while the record is active, otherwise return_form is set to the key |
| LaptopAllocation.UploadReturnForm | backend/db/repository/laptop_allocation.py:214-241 | the in-place upload agrees with UploadReturnFormStep |
| LaptopAllocation.ShowAnAllocation | backend/db/repository/laptop_allocation.py:95-115 | NotFound for an unknown id, an internal error when its laptop is gone, otherwise the stored record |
| LaptopAllocation.DownloadForm | backend/db/repository/laptop_allocation.py:183-212 | NotFound exactly when the record is missing or has no allocation form; otherwise a link to that key valid for 3600 seconds |
| LaptopAllocation.DownloadReturnForm | backend/db/repository/laptop_allocation.py:243-278 | NotFound exactly when the record is missing or has no return form; otherwise a link to that key valid for 3600 seconds |
| LaptopAllocation.ShowAllAllocations | backend/db/repository/laptop_allocation.py:64-93 | a record is listed exactly when it matches every given filter: is_active whenever not None, username and serial number only when non-empty |
| LaptopAllocation.InactiveListingIsReturnedRecords | backend/db/repository/laptop_allocation.py:77-79 | filtering on is_active false lists exactly the inactive records |
| LaptopAllocation.StrOptional | backend/db/repository/laptop_allocation.py:326 | on the return form an unset return date is rendered as the text "None", and only then |
| LaptopAllocation.CreateAllocationForm | backend/db/repository/laptop_allocation.py:280-312 | the payload needs the record's user, laptop and allocator and carries their details with the record's dates and conditions; there is no guard on the forms |
| LaptopAllocation.CreateReturnForm | backend/db/repository/laptop_allocation.py:314-348 | Forbidden exactly when the joined record has no allocation form. Otherwise the payload carries the returner and the return fields, and it fails when the returner is missing |
| ObjectStore.BlobStore.Put | backend/apis/v1/route_laptop_allocation.py:333-340 | a put stores the bytes under the key and changes no other object |
| ObjectKeys.ParseObjectKey | backend/apis/v1/route_laptop_allocation.py:331 | a key it reads back names one of the three known folders and two canonical UUIDs |
| ObjectKeys.ObjectKeyRoundTrip | backend/apis/v1/route_laptop_allocation.py:331 | a key built from a known folder and two canonical UUIDs parses back to exactly its four parts, whatever the file name |
| ObjectKeys.ObjectKeyInjective | backend/apis/v1/route_laptop_procurement.py:121 | two such keys are equal only when all four parts are |
| AllocationRoutes.Folder | backend/apis/v1/route_laptop_allocation.py:331 | allocation forms go under "allocation_forms/" and return forms (line 391) under "return_forms/" |
| AllocationRoutes.UploadSpec | backend/apis/v1/route_laptop_allocation.py:296-420 | a failed put gives UploadFailed and changes nothing. Otherwise the blob is stored even when the record is unknown (NotFound) or still active for a return form (Forbidden). Success exactly when the put works, the record exists and, for a return form, is inactive; then the stored key is returned and is in the store |
| AllocationRoutes.UploadSignedForm | backend/apis/v1/route_laptop_allocation.py:296-420 | the in-place put-then-record sequence agrees with UploadSpec |
| AllocationRoutes.FormKindOf | backend/apis/v1/route_laptop_allocation.py:614-625 | "allocation" and "return" are recognised in any letter case, and nothing else is |
| AllocationRoutes.FormKindIgnoresCase | backend/apis/v1/route_laptop_allocation.py:614-625 | two form types with the same lower-case form dispatch alike |
| AllocationRoutes.FormTitle | backend/apis/v1/route_laptop_allocation.py:607 | "Laptop " + capitalised form type + " Form" |
| AllocationRoutes.FormTitleOfAcceptedType | backend/apis/v1/route_laptop_allocation.py:607-620 | an accepted form type's title is "Laptop Allocation Form" or "Laptop Return Form" |
| AllocationRoutes.AllocationTitle | backend/apis/v1/route_laptop_allocation.py:607 | any casing of "allocation" is titled "Laptop Allocation Form" |
| AllocationRoutes.ReturnTitle | backend/apis/v1/route_laptop_allocation.py:607 | any casing of "return" is titled "Laptop Return Form" |
| AllocationRoutes.GenerateFormSpec | backend/apis/v1/route_laptop_allocation.py:567-633 | NotFound for an unknown allocation. NotAcceptable exactly for an unrecognised form type on a readable allocation. A return form needs an allocation form (Forbidden otherwise). A success carries the fixed document constants, the title and the user's file name |
| AllocationRoutes.GenerateForm | backend/apis/v1/route_laptop_allocation.py:567-633 | an empty organisation table is an internal error; otherwise the result is GenerateFormSpec for the name of some stored organisation |
| LaptopDetail.NewLaptopStep | backend/db/repository/laptop_detail.py:16-37 | as intended: one laptop added with the name lower-cased, every other field verbatim and the request's business unit |
| LaptopDetail.NewLaptopNeverStoresAsWritten | backend/db/repository/laptop_detail.py:17-26 | as written every request fails; as intended a fresh key always succeeds |
| LaptopDetail.NewLaptop | backend/db/repository/laptop_detail.py:16-37 | the in-place create agrees with NewLaptopStep |
| LaptopDetail.GetALaptop | backend/db/repository/laptop_detail.py:39-52 | NotFound exactly for an unknown id; otherwise the stored row unchanged |
| LaptopDetail.GetLaptops | backend/db/repository/laptop_detail.py:54-76 | a laptop is listed exactly when its status row has the given name (if given) and its business unit is the given one (if given) |
| LaptopDetail.ModifyLaptopStatusStep | backend/db/repository/laptop_detail.py:78-98 | NotFound for an unknown id; otherwise status_id becomes the given value, unchecked, and nothing else changes |
| LaptopDetail.ModifyLaptopStatus | backend/db/repository/laptop_detail.py:78-98 | the in-place change agrees with ModifyLaptopStatusStep |
| LaptopDetail.DeleteALaptopStep | backend/db/repository/laptop_detail.py:100-120 | NotFound for an unknown id; otherwise only that laptop is removed, whatever records name it |
| LaptopDetail.DeleteALaptop | backend/db/repository/laptop_detail.py:100-120 | the in-place delete agrees with DeleteALaptopStep |
| LaptopProcurement.NewLaptopPurchaseStep | backend/db/repository/laptop_procurement.py:17-46 | one record with the request's fields and one "Added laptop to procurement table" audit entry; a reused key changes nothing |
| LaptopProcurement.NewLaptopPurchase | backend/db/repository/laptop_procurement.py:17-46 | the in-place create agrees with NewLaptopPurchaseStep |
| LaptopProcurement.UploadPurchaseOrderStep | backend/db/repository/laptop_procurement.py:48-73 | NotFound with no audit entry for an unknown record. Otherwise purchase_order_file is set to the key and one "File Upload" entry naming the record is appended |
| LaptopProcurement.UploadPurchaseOrder | backend/db/repository/laptop_procurement.py:48-73 | the in-place upload agrees with UploadPurchaseOrderStep |
| LaptopProcurement.DownloadPOStep | backend/db/repository/laptop_procurement.py:75-114 | NotFound with no entry when the record or its file is missing; otherwise a 3600-second link, the record unchanged and one "File Download" entry |
| LaptopProcurement.DownloadPO | backend/db/repository/laptop_procurement.py:75-114 | the in-place download agrees with DownloadPOStep |
| LaptopProcurement.QuietSearchStep | backend/db/repository/laptop_procurement.py:116-137 | a missing record commits one failed-search entry and then gives NotFound; an existing one gives true and appends nothing |
| LaptopProcurement.QuietSearch | backend/db/repository/laptop_procurement.py:116-137 | the in-place search agrees with QuietSearchStep |
| LaptopProcurement.GetARecordStep | backend/db/repository/laptop_procurement.py:139-173 | a missing record gives NotFound with the entry discarded (no commit); a hit returns the record and appends exactly one entry |
| LaptopProcurement.GetARecord | backend/db/repository/laptop_procurement.py:139-173 | the in-place lookup agrees with GetARecordStep |
| LaptopProcurement.GetRecordsStep | backend/db/repository/laptop_procurement.py:175-210 | lists exactly the records matching every truthy filter and always appends one search entry |
| LaptopProcurement.FindRecords | backend/db/repository/laptop_procurement.py:185-200 | the step-by-step query lists exactly the records matching every truthy filter |
| LaptopProcurement.GetRecords | backend/db/repository/laptop_procurement.py:175-210 | the in-place search agrees with GetRecordsStep |
| LaptopProcurement.Perform | backend/db/repository/laptop_procurement.py:17-210 | every procurement call keeps the audit log as a prefix and adds at most one entry |
| LaptopProcurement.AuditLogOnlyGrows | backend/db/repository/laptop_procurement.py:17-210 | over any run of procurement calls the old log stays a prefix, never rewritten, and at most one entry per call is added |
| ProcurementRoutes.UploadPurchaseOrderSpec | backend/apis/v1/route_laptop_procurement.py:86-148 | an unknown record is checked first: NotFound, no blob written, the failed-search entry committed. A failed put gives UploadFailed with the record unchanged. A success stores the blob and the key and returns the stored key |
| ProcurementRoutes.UploadPurchaseOrderFile | backend/apis/v1/route_laptop_procurement.py:86-148 | the in-place handler agrees with UploadPurchaseOrderSpec |
| UserSchema.CheckPasswordLength | backend/schemas/user.py:39-43 | refuses (Unprocessable) a present non-empty password shorter than 8; what passes is returned unchanged |
| UserSchema.AcceptedPasswords | backend/schemas/user.py:41 | accepted exactly when absent, empty or at least 8 characters long |
| UserSchema.ValidateChangePassword | backend/schemas/user.py:53-55 | new_password is required and at least 8 characters long |
| UserSchema.ChangePasswordStricterThanCreate | backend/schemas/user.py:39-55 | every new password ChangePassword accepts also passes the create validator, but not the other way round (the empty password) |
| UserRepo.UniqueUsernamesNeverDuplicated | backend/db/models/is_users.py:20 | with unique usernames the username lookup never raises |
| UserRepo.CreateUserChecking | backend/db/repository/user.py:19-52 | Conflict when the checked name or the email is taken; success exactly when both are free and the key is fresh, storing the lower-cased username and the hash |
| UserRepo.CreateUserStep | backend/db/repository/user.py:19-52 | as intended: a taken lower-case name refuses the call; a success stores the lower-cased username |
| UserRepo.CreateUserKeepsUsernamesUnique | backend/db/repository/user.py:20-39 | the corrected create keeps usernames unique |
| UserRepo.CreateUserCaseConflict | backend/db/repository/user.py:20-39 | as written, "Bob" passes the check beside a stored "bob" and a second "bob" is stored; as intended it is a Conflict |
| UserRepo.AddUser | backend/db/repository/user.py:19-52 | the in-place create agrees with CreateUserStep |
| UserRepo.GetAUser | backend/db/repository/user.py:55-65 | NotFound for an unknown username, an internal error when several users share it, otherwise the one user with that username |
| UserRepo.GetAllUsers | backend/db/repository/user.py:68-91 | a user is listed exactly when it matches is_active (when not None) and the username (when non-empty) |
| UserRepo.ChangeNamedUser | backend/db/repository/user.py:97-104 | every username-addressed change fails NotFound for an unknown name and changes nothing; otherwise only that user's row is replaced by the changed row |
| UserRepo.ChangeUser | backend/db/repository/user.py:97-113 | the in-place change agrees with ChangeNamedUser |
| UserRepo.SetFieldsSnoc | backend/db/repository/user.py:131-132 | the setattr loop over a longer list is one more setattr |
| UserRepo.UpdateDataMeaning | backend/db/repository/user.py:130-132 | the setattr loop changes exactly the supplied fields, each to its supplied value |
| UserRepo.Apply | backend/db/repository/user.py:94-218 | no change renames a user, and every change stamps modified_at |
| UserRepo.ChangeUserPasswordStep | backend/db/repository/user.py:94-113 | a success stores the hash of the new password on the named user |
| UserRepo.ChangeUserPassword | backend/db/repository/user.py:94-113 | the in-place change agrees with ChangeUserPasswordStep |
| UserRepo.UpdateUserStep | backend/db/repository/user.py:116-140 | succeeds exactly when the username picks out one user, whose supplied fields take their new values, modified_at is stamped, and nothing else changes |
| UserRepo.UpdateUser | backend/db/repository/user.py:116-140 | the setattr loop over the supplied fields agrees with UpdateUserStep |
| UserRepo.ChangeUserStatusStep | backend/db/repository/user.py:179-197 | a success flips is_active |
| UserRepo.ChangeUserPermissionStep | backend/db/repository/user.py:200-218 | a success flips is_superuser |
| UserRepo.ChangeUserStatus | backend/db/repository/user.py:179-197 | the in-place toggle agrees with ChangeUserStatusStep |
| UserRepo.ChangeUserPermission | backend/db/repository/user.py:200-218 | the in-place toggle agrees with ChangeUserPermissionStep |
| UserRepo.ChangeKeepsLookup | backend/db/repository/user.py:182-189 | after a change the name still picks out the same user |
| UserRepo.ChangeUserStatusTwice | backend/db/repository/user.py:189 | toggling is_active twice restores the user apart from modified_at |
| UserRepo.ChangeUserPermissionTwice | backend/db/repository/user.py:211 | toggling is_superuser twice restores the user apart from modified_at |
| UserRepo.ChangeKeepsUsernamesUnique | backend/db/repository/user.py:94-218 | no username-addressed change breaks unique usernames |
| UserRepo.ChangeMyPasswordStep | backend/db/repository/user.py:143-160 | Unauthorized with no change when the current password does not verify; otherwise only the hash and modified_at change |
| UserRepo.ChangeMyPassword | backend/db/repository/user.py:143-160 | the in-place change agrees with ChangeMyPasswordStep |
| UserRepo.DeleteAUserStep | backend/db/repository/user.py:163-176 | NotFound for an unknown name. Otherwise the user and, through the cascade, exactly that user's allocation records are removed, the other records unchanged |
| UserRepo.DeleteAUser | backend/db/repository/user.py:163-176 | the in-place delete agrees with DeleteAUserStep |
| UserRepo.ReportUnauthorizedAccess | backend/db/repository/user.py:221-229 | always Unauthorized, writing nothing |
| AccessoryRepo.CreateAccessoryStep | backend/db/repository/accessory.py:10-21 | stores the name and serial number only; a new accessory is never assigned |
| AccessoryRepo.CreateAccessoryRecord | backend/db/repository/accessory.py:10-21 | the in-place create agrees with CreateAccessoryStep |
| AccessoryRepo.SetAssignmentStep | backend/db/repository/accessory.py:23-74 | NotFound for an unknown accessory; otherwise only its assignment changes |
| AccessoryRepo.AssignAccessoryStep | backend/db/repository/accessory.py:23-37 | succeeds exactly for a known accessory, which is then assigned to the given allocation, unchecked |
| AccessoryRepo.ReturnAccessoryStep | backend/db/repository/accessory.py:60-74 | succeeds exactly for a known accessory, which is then unassigned |
| AccessoryRepo.SetAssignment | backend/db/repository/accessory.py:23-74 | the in-place change agrees with SetAssignmentStep |
| AccessoryRepo.AssignAccessory | backend/db/repository/accessory.py:23-37 | the in-place assign agrees with AssignAccessoryStep |
| AccessoryRepo.ReturnAnAccessory | backend/db/repository/accessory.py:60-74 | the in-place return agrees with ReturnAccessoryStep |
| AccessoryRepo.GetAnAccessory | backend/db/repository/accessory.py:39-50 | NotFound exactly for an unknown id; otherwise the stored accessory |
| AccessoryRepo.GetAllAccessories | backend/db/repository/accessory.py:53-58 | every accessory |
| AccessoryRepo.AssignThenReturn | backend/db/repository/accessory.py:31-68 | assign then return leaves what a plain return leaves |
| AccessoryRepo.ReturnIdempotent | backend/db/repository/accessory.py:68 | returning twice leaves what returning once leaves |
| DepartmentRepo.NewDepartmentStep | backend/db/repository/department.py:16-29 | one active department with the name lower-cased, created now, never modified |
| DepartmentRepo.NewDepartment | backend/db/repository/department.py:16-29 | the in-place create agrees with NewDepartmentStep |
| DepartmentRepo.GetDepartment | backend/db/repository/department.py:32-42 | NotFound exactly for an unknown id |
| DepartmentRepo.GetDepartments | backend/db/repository/department.py:45-59 | a department is listed exactly when its name equals the given one, if one is given |
| DepartmentRepo.NewDepartmentFoundByTypedName | backend/db/repository/department.py:16-59 | a new department is found by the name it was created with exactly when that name has no capital letter |
| DepartmentRepo.UpdateDepartmentStep | backend/db/repository/department.py:62-80 | NotFound for an unknown id; otherwise the name is set as given (not lower-cased) and modified_at is stamped |
| DepartmentRepo.UpdateDepartment | backend/db/repository/department.py:62-80 | the in-place update agrees with UpdateDepartmentStep |
| DepartmentRepo.UpdatedDepartmentFoundByNewName | backend/db/repository/department.py:45-80 | after an update the department is found under exactly its new name |
| DepartmentRepo.DeleteDepartmentStep | backend/db/repository/department.py:83-101 | NotFound for an unknown id; otherwise only that department is removed |
| DepartmentRepo.DeleteDepartment | backend/db/repository/department.py:83-101 | the in-place delete agrees with DeleteDepartmentStep |
| BusinessUnitRepo.NewBusinessUnitStep | backend/db/repository/business_unit.py:16-28 | one active unit with the name lower-cased, never modified |
| BusinessUnitRepo.NewBusinessUnit | backend/db/repository/business_unit.py:16-28 | the in-place create agrees with NewBusinessUnitStep |
| BusinessUnitRepo.GetBusinessUnit | backend/db/repository/business_unit.py:31-42 | NotFound exactly for an unknown id |
| BusinessUnitRepo.GetBusinessUnits | backend/db/repository/business_unit.py:45-59 | a unit is listed exactly when its name equals the given one, if one is given |
| BusinessUnitRepo.UpdateBusinessUnitStep | backend/db/repository/business_unit.py:62-81 | as intended: NotFound for an unknown id; otherwise the unit takes the new name as given and modified_at |
| BusinessUnitRepo.UpdateBusinessUnit | backend/db/repository/business_unit.py:62-81 | the in-place update agrees with UpdateBusinessUnitStep |
| BusinessUnitRepo.RenameIsLostAsWritten | backend/db/repository/business_unit.py:74-75 | as written a rename succeeds but the unit keeps its old name and is not found under the new one; as intended it is found under the new name only |
| BusinessUnitRepo.DeleteBusinessUnitStep | backend/db/repository/business_unit.py:84-103 | NotFound for an unknown id; otherwise only that unit is removed |
| BusinessUnitRepo.DeleteBusinessUnit | backend/db/repository/business_unit.py:84-103 | the in-place delete agrees with DeleteBusinessUnitStep |
| OrganizationRepo.AddOrganizationStep | backend/db/repository/organization.py:16-35 | one organisation with name, street address and PO box verbatim; a reused key changes nothing |
| OrganizationRepo.AddOrganization | backend/db/repository/organization.py:16-35 | the in-place create agrees with AddOrganizationStep |
| OrganizationRepo.SetFieldsSnoc | backend/db/repository/organization.py:53-54 | the setattr loop over a longer list is one more setattr |
| OrganizationRepo.UpdateDataMeaning | backend/db/repository/organization.py:52-54 | the setattr loop changes exactly the supplied fields, each to its supplied value |
| OrganizationRepo.UpdateOrganizationStep | backend/db/repository/organization.py:37-63 | NotFound for an unknown id; otherwise only the supplied fields and modified_at change |
| OrganizationRepo.UpdateOrganization | backend/db/repository/organization.py:37-63 | the setattr loop agrees with UpdateOrganizationStep |
| OrganizationRepo.GetOrganizationDetails | backend/db/repository/organization.py:65-81 | NotFound exactly for an unknown id; no value on success |
| OrganizationRepo.ListOrganizations | backend/db/repository/organization.py:83-91 | every organisation |
| OrganizationRepo.GetOrganizationName | backend/db/repository/organization.py:93-101 | an internal error exactly when there is no organisation; otherwise the name of a stored organisation |
| RepairHistoryRepo.CreateEntryStep | backend/db/repository/repair_history.py:9-25 | one entry with the nine given fields; a reused key changes nothing |
| RepairHistoryRepo.CreateEntry | backend/db/repository/repair_history.py:9-25 | the in-place create agrees with CreateEntryStep |
| RepairHistoryRepo.ShowRepairs | backend/db/repository/repair_history.py:27-29 | every entry |
| RepairHistoryRepo.ShowAnEntry | backend/db/repository/repair_history.py:32-40 | NotFound exactly for an unknown id; otherwise that entry |
| RepairHistoryRepo.CreateEntryKeepsHistory | backend/db/repository/repair_history.py:22-23 | a create keeps every earlier entry as it was |
| Seed.MissingStatuses | backend/db/seed.py:39-43 | a run adds exactly the vocabulary names not yet stored, each once |
| Seed.MissingFromNothing | backend/db/seed.py:39-43 | on an empty status table the vocabulary is added in its own order |
| Seed.AppendDistinct | backend/db/seed.py:39-43 | adding new distinct names to distinct names keeps them distinct |
| Seed.AdminUser | backend/db/seed.py:45-68 | the seeded administrator is named "admin", is a superuser and is active |
| Seed.SeedStep | backend/db/seed.py:32-69 | when a user named "admin" exists nothing is committed, not even the statuses; otherwise the missing statuses and the administrator are committed together |
| Seed.SeedData | backend/db/seed.py:32-69 | the two loops and the conditional commit agree with SeedStep |
| Seed.SafeSeedStep | backend/db/seed.py:18-28 | seeds only a store without users, and otherwise changes nothing |
| Seed.SafeSeedData | backend/db/seed.py:18-28 | the in-place run agrees with SafeSeedStep |
| Seed.SeedKeepsStatusesDistinct | backend/db/seed.py:39-43 | seeding never repeats a status name |
| Seed.SeedResolvesVocabulary | backend/db/seed.py:39-43 | after a committing run every vocabulary name resolves to one status row |
| Seed.VocabularyIds | backend/enums/laptop_status.py:3-8 | "Available" is status 1 and "Allocated" status 2 |
| Seed.SafeSeedFromEmpty | backend/db/seed.py:18-69 | from an empty store: the statuses are the vocabulary in order, the administrator is the only user, and "Available" and "Allocated" resolve |
| Seed.SafeSeedIdempotent | backend/db/seed.py:21-28 | a second safe seeding run changes nothing |
| Consistency.SameViewAgrees | backend/db/repository/laptop_allocation.py:37-43 | whether a laptop agrees depends only on its row, the statuses and its active records |
| Consistency.CreateOnFreeLaptopAgrees | backend/db/repository/laptop_allocation.py:20-62 | allocating a laptop that no active record holds keeps "shows Allocated exactly when one active record holds it" |
| Consistency.ReturnSoleActiveAgrees | backend/db/repository/laptop_allocation.py:117-158 | returning a laptop's one active record keeps the agreement |
| Consistency.DoubleBooking | backend/db/repository/laptop_allocation.py:20-52 | two creates for one laptop both succeed and leave two active records; the agreement breaks |
| Consistency.StaleReturnFreesAllocatedLaptop | backend/db/repository/laptop_allocation.py:121-143 | returning an already returned record marks a still-allocated laptop Available |
| Consistency.ModifyStatusBreaksAgreement | backend/db/repository/laptop_detail.py:82-90 | setting an allocated laptop to another status succeeds and breaks the agreement |
| Consistency.DeleteStrandsActiveAllocation | backend/db/repository/laptop_detail.py:101-114 | deleting a laptop leaves its active record pointing at nothing, and returning it then fails |
| Consistency.CreateKeepsReturned | backend/db/repository/laptop_allocation.py:23-35 | a create under another key leaves a returned record returned |
| Consistency.ReturnKeepsReturned | backend/db/repository/laptop_allocation.py:137-141 | a return only ever writes is_active false |
| Consistency.DeleteUserKeepsReturned | backend/db/models/is_users.py:40-46 | the cascade removes records and never reactivates one |
| Consistency.CallKeepsReturned | backend/db/repository/laptop_allocation.py:20-241 | no allocation, laptop or user-delete call reactivates a returned record |
| Consistency.CallKeepsAudit | backend/db/repository/laptop_allocation.py:20-241 | none of those calls writes the audit log |
| Consistency.NeverReactivated | backend/db/repository/laptop_allocation.py:117-158 | over any sequence of those calls with fresh keys, a returned record is never active again and the audit log is untouched |

## Left out

- Database constraints (foreign keys, unique indexes, NOT NULL) are not modelled. A real database turns these cases into integrity errors:
  - a second user with the same name or email;
  - an allocation naming a missing user;
  - deleting a laptop that records still name.

  The model instead shows what the Python code itself checks.
- The audit rows' timestamps and the users' and departments' `created_at` column defaults are not modelled. `BusinessUnit` carries no `created_at`.
- Logging, and the PDF rendering of `generate_allocation_form`: a rendered form is the value `RenderedForm(payload, config)`.
- The object store's client: a put is `BlobStore.Put` or a failure flag, and a presigned link is the value `PresignedUrl(key, 3600)`.
- Password hashing and verification: a digest is `HashOf(secret)`, and whether the current password verifies is a parameter of `ChangeMyPassword`.
- Authentication, the route-level superuser guards and the remaining HTTP wiring and response schemas.
- Floating-point costs are carried as opaque text.
- Concurrency: every operation is one sequential step.
- `UserRepo.UpdateUserStep`: a supplied `None` for a first or last name (which the NOT NULL column refuses) cannot be expressed; supplied names are strings.
- `OrganizationRepo.UpdateOrganizationStep`: a supplied `None` for an organisation name cannot be expressed, for the same reason.
- `Dates.FormatDate`: letter case, digits outside ASCII, and the other leniencies of `strptime` beyond the plain `YYYY-MM-DD` shape are not modelled.
- `Text.Lower`, `Text.Capitalize`: only ASCII letters change case.
- `Consistency.NeverReactivated`: it assumes that creates use keys other than the record's. A reused UUID would be a fresh row.
- The route that passes a business-unit name where the laptop listing expects a unit id: the listing is modelled on the id it compares.

## Findings

| source | as written | input that shows it | evidently intended | confidence | as-written member | corrected member |
|---|---|---|---|---|---|---|
| backend/db/repository/laptop_detail.py:24 | the row is built from `laptop.business_unit_id`, which `CreateLaptop` does not declare (it has `business_unit`), so every call raises before anything is added | any `CreateLaptop` request | store the request's business unit | not executed | LaptopDetail.NewLaptopAsWritten | LaptopDetail.NewLaptopStep |
| backend/db/repository/user.py:20-22 | the username conflict check queries the name as given, while the row stores it lower-cased | a user "bob" exists and the request asks for "Bob" with a new email | Conflict, comparing the name that will be stored | not executed | UserRepo.CreateUserAsWritten | UserRepo.CreateUserStep |
| backend/db/repository/business_unit.py:74 | the new name is assigned to `department_name`, which a business unit does not map, so `unit_name` never changes although the call reports success | renaming a unit "sales" to "marketing" | set `unit_name` to the new name | not executed | BusinessUnitRepo.UpdateBusinessUnitAsWritten | BusinessUnitRepo.UpdateBusinessUnitStep |
