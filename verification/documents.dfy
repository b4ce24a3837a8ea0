/** Client-side lists of server documents, identified by their `_id`: the
    prepend, replace-by-id and delete-by-id steps the store's reducers share. */
module Documents {
  import opened Common

  /** A document as the store holds it: its `_id` and the rest of its fields. */
  datatype Doc<T> = Doc(id: string, body: T)

  function HasId<T>(id: string): Doc<T> -> bool {
    (d: Doc<T>) => d.id == id
  }

  function NotId<T>(id: string): Doc<T> -> bool {
    (d: Doc<T>) => d.id != id
  }

  /** `list.filter(d => d._id !== id)`. */
  function RemoveId<T>(s: seq<Doc<T>>, id: string): (r: seq<Doc<T>>)
    ensures |r| <= |s|
    ensures forall d | d in r :: d in s && d.id != id
    ensures forall d | d in s && d.id != id :: d in r
  {
    Filter(s, NotId(id))
  }

  /** Removing an id no document carries changes nothing. */
  lemma {:induction false} RemoveIdAbsent<T>(s: seq<Doc<T>>, id: string)
    requires forall d | d in s :: d.id != id
    ensures RemoveId(s, id) == s
  {
    if |s| != 0 {
      RemoveIdAbsent(s[1..], id);
    }
  }

  /** Removing an id twice is removing it once. */
  lemma RemoveIdIdempotent<T>(s: seq<Doc<T>>, id: string)
    ensures RemoveId(RemoveId(s, id), id) == RemoveId(s, id)
  {
    RemoveIdAbsent(RemoveId(s, id), id);
  }

  /** The survivors keep their order: removal distributes over concatenation. */
  lemma RemoveIdAppend<T>(a: seq<Doc<T>>, b: seq<Doc<T>>, id: string)
    ensures RemoveId(a + b, id) == RemoveId(a, id) + RemoveId(b, id)
  {
    FilterAppend(a, b, NotId(id));
  }

  /** `i = list.findIndex(x => x._id === d._id); if (i !== -1) list[i] = d`. */
  function ReplaceId<T>(s: seq<Doc<T>>, d: Doc<T>): (r: seq<Doc<T>>)
    ensures |r| == |s|
    ensures forall j :: 0 <= j < |s| ==> r[j] == s[j] || (r[j] == d && s[j].id == d.id)
  {
    match FindIndex(s, HasId(d.id))
    case None => s
    case Some(k) => s[k := d]
  }

  /** Only the first document with the id is replaced; without one the list
      is unchanged. */
  lemma ReplaceIdFirst<T>(s: seq<Doc<T>>, d: Doc<T>)
    ensures (forall j :: 0 <= j < |s| ==> s[j].id != d.id) ==> ReplaceId(s, d) == s
    ensures forall k :: 0 <= k < |s| && s[k].id == d.id && (forall j :: 0 <= j < k ==> s[j].id != d.id) ==>
              ReplaceId(s, d) == s[k := d]
  {
    ReplaceFirstSpec(s, HasId(d.id), d);
    assert ReplaceId(s, d) == ReplaceFirst(s, HasId(d.id), d);
  }

  /** The selected document after `d` came back from the server: replaced
      only when its id matches. */
  function Reselect<T>(sel: Option<Doc<T>>, d: Doc<T>): (r: Option<Doc<T>>)
    ensures r == Some(d) <==> sel.Some? && sel.value.id == d.id
    ensures r != Some(d) ==> r == sel
  {
    if sel.Some? && sel.value.id == d.id then Some(d) else sel
  }

  /** The selected document after `id` was deleted: cleared exactly when its id matches. */
  function Deselect<T>(sel: Option<Doc<T>>, id: string): (r: Option<Doc<T>>)
    ensures r.None? <==> sel.None? || sel.value.id == id
    ensures r.Some? ==> r == sel
  {
    if sel.Some? && sel.value.id == id then None else sel
  }
}
