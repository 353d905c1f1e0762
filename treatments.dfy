/** The treatment list (`Treatments`): deleting an entry after confirmation,
    and the date shown for each treatment. */
module Treatments {
  import opened Common
  import Seqs

  /** An entry of the list: its document id, with the rest of the document. */
  datatype Entry<T> = Entry(id: string, doc: T)

  function HasId<T>(id: string): Entry<T> -> bool {
    (e: Entry<T>) => e.id == id
  }

  /** `handleDelete(id)`: when the confirm is accepted and `deleteDoc`
      succeeds, the list becomes the old one without the entries of that id;
      otherwise it is kept. */
  function HandleDelete<T>(entries: seq<Entry<T>>, id: string, confirmed: bool, deleteOk: bool): (r: seq<Entry<T>>)
    ensures !confirmed || !deleteOk ==> r == entries
    ensures confirmed && deleteOk ==> forall i :: 0 <= i < |r| ==> r[i].id != id && r[i] in entries
    ensures confirmed && deleteOk ==> forall i :: 0 <= i < |entries| && entries[i].id != id ==> entries[i] in r
  {
    if confirmed && deleteOk then Seqs.Without(entries, HasId(id)) else entries
  }

  /** Deletion keeps the order of the remaining entries: deleting from a
      concatenation deletes from each part. */
  lemma DeleteKeepsOrder<T>(a: seq<Entry<T>>, b: seq<Entry<T>>, id: string)
    ensures HandleDelete(a + b, id, true, true) == HandleDelete(a, id, true, true) + HandleDelete(b, id, true, true)
  {
    Seqs.WithoutAppend(a, b, HasId(id));
  }

  /** Deleting an id that is not listed changes nothing, and deleting twice is deleting once. */
  lemma DeleteAbsentOrTwice<T>(entries: seq<Entry<T>>, id: string)
    ensures (forall i :: 0 <= i < |entries| ==> entries[i].id != id) ==> HandleDelete(entries, id, true, true) == entries
    ensures HandleDelete(HandleDelete(entries, id, true, true), id, true, true) == HandleDelete(entries, id, true, true)
  {
    if forall i :: 0 <= i < |entries| ==> entries[i].id != id {
      Seqs.WithoutNothingDropped(entries, HasId(id));
    }
    Seqs.WithoutIdempotent(entries, HasId(id));
  }

  /** A stored date: a Firestore timestamp or another value `new Date` accepts. */
  datatype StoredDate = Timestamp(seconds: int) | Other(value: string)

  /** `formatDate`: a missing or empty date reads `'Invalid Date'`; any other
      is passed to the locale formatter `localeDate`. */
  function FormatDate(date: Option<StoredDate>, localeDate: StoredDate -> string): (r: string)
    ensures date.None? || date == Some(Other("")) ==> r == "Invalid Date"
    ensures date.Some? && date != Some(Other("")) ==> r == localeDate(date.value)
  {
    if date.None? || date == Some(Other("")) then "Invalid Date" else localeDate(date.value)
  }
}
