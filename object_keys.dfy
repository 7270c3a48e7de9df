/**
 * The object names uploaded documents are stored under: a folder per kind
 * of document, the owning record's id, a fresh random uuid, and the name
 * the client gave the file.
 */
module ObjectKeys {
  import opened Outcome
  import opened Tables

  const AllocationForms := "allocation_forms/"
  const ReturnForms := "return_forms/"
  const PurchaseOrders := "purchase_orders/"

  predicate KnownFolder(folder: string) {
    folder == AllocationForms || folder == ReturnForms || folder == PurchaseOrders
  }

  /** "{folder}{owner id}/{random uuid}_{file name}". */
  function ObjectKey(folder: string, owner: Uuid, token: Uuid, filename: string): string {
    folder + owner + "/" + token + "_" + filename
  }

  datatype KeyParts = KeyParts(folder: string, owner: Uuid, token: Uuid, filename: string)

  /** The folder a key starts with, told apart by its first letter. */
  function FolderOf(key: string): (folder: string)
    ensures KnownFolder(folder)
  {
    if |key| > 0 && key[0] == 'a' then AllocationForms
    else if |key| > 0 && key[0] == 'r' then ReturnForms
    else PurchaseOrders
  }

  /** Reads a key back into the parts it was built from. */
  function ParseObjectKey(key: string): (r: Option<KeyParts>)
    ensures r.Some? ==> KnownFolder(r.value.folder) && CanonicalUuid(r.value.owner) && CanonicalUuid(r.value.token)
  {
    var folder := FolderOf(key);
    var n := |folder|;
    if |key| < n + 74 || key[..n] != folder then None
    else
      var owner := key[n..n + 36];
      var token := key[n + 37..n + 73];
      if key[n + 36] == '/' && key[n + 73] == '_' && CanonicalUuid(owner) && CanonicalUuid(token)
      then Some(KeyParts(folder, owner, token, key[n + 74..]))
      else None
  }

  /** A key made from canonical ids parses back to exactly its parts. */
  lemma {:induction false} ObjectKeyRoundTrip(folder: string, owner: Uuid, token: Uuid, filename: string)
    requires KnownFolder(folder) && CanonicalUuid(owner) && CanonicalUuid(token)
    ensures ParseObjectKey(ObjectKey(folder, owner, token, filename)) == Some(KeyParts(folder, owner, token, filename))
  {
    var key := ObjectKey(folder, owner, token, filename);
    var n := |folder|;
    assert key[0] == folder[0];
    assert FolderOf(key) == folder;
    assert key[..n] == folder;
    assert key[n..n + 36] == owner;
    assert key[n + 37..n + 73] == token;
    assert key[n + 74..] == filename;
  }

  /**
   * Two uploads share a key only if they agree on folder, record, random
   * token and file name: documents of different kinds or records never
   * overwrite each other.
   */
  lemma {:induction false} ObjectKeyInjective(f1: string, o1: Uuid, t1: Uuid, n1: string,
                                             f2: string, o2: Uuid, t2: Uuid, n2: string)
    requires KnownFolder(f1) && CanonicalUuid(o1) && CanonicalUuid(t1)
    requires KnownFolder(f2) && CanonicalUuid(o2) && CanonicalUuid(t2)
    requires ObjectKey(f1, o1, t1, n1) == ObjectKey(f2, o2, t2, n2)
    ensures f1 == f2 && o1 == o2 && t1 == t2 && n1 == n2
  {
    ObjectKeyRoundTrip(f1, o1, t1, n1);
    ObjectKeyRoundTrip(f2, o2, t2, n2);
  }
}
