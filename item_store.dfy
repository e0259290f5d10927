/**
  The in-memory item store behind the CRUD endpoints of the application:
  a module-level list of `{id, name}` records that POST /items appends to,
  GET /items returns, PUT /items/:id renames one record of and
  DELETE /items/:id filters.
 */
module ItemStore {
  import opened Options

  /** One stored record. The id is the creation time in milliseconds. */
  datatype Item = Item(id: int, name: string)

  /** What a handler sends back; every payload is serialised as JSON. */
  datatype Payload =
    | ItemBody(item: Item)
    | ItemList(items: seq<Item>)
    | Message(text: string)

  datatype Response = Response(status: int, body: Payload)

  /**
    Strict equality between a record's id and the parsed path parameter.
    `None` stands for a parameter whose numeric value is NaN (or is not an
    integer, which no creation timestamp equals): it equals no id.
   */
  function Matches(it: Item, id: Option<int>): (b: bool)
    ensures id.None? ==> !b
    ensures b <==> id.Some? && id.value == it.id
  {
    id == Some(it.id)
  }

  /** The index that `find` stops at: the first record whose id matches. */
  function FindFirst(s: seq<Item>, id: Option<int>): (r: Option<nat>)
    ensures r.None? <==> forall j :: 0 <= j < |s| ==> !Matches(s[j], id)
    ensures r.Some? ==> r.value < |s| && Matches(s[r.value], id)
    ensures r.Some? ==> forall j :: 0 <= j < r.value ==> !Matches(s[j], id)
  {
    if s == [] then None
    else if Matches(s[0], id) then Some(0)
    else match FindFirst(s[1..], id)
      case None => None
      case Some(k) => Some(k + 1)
  }

  /** What `filter(i => i.id !== id)` keeps: every record whose id differs, in order. */
  function Remove(s: seq<Item>, id: Option<int>): (r: seq<Item>)
    ensures |r| <= |s|
    ensures forall x :: x in r <==> x in s && !Matches(x, id)
  {
    if s == [] then []
    else if Matches(s[0], id) then Remove(s[1..], id)
    else [s[0]] + Remove(s[1..], id)
  }

  /** The store and its four handlers. */
  class Store {
    var items: seq<Item>

    /** The list starts empty when the module is loaded. */
    constructor ()
      ensures items == []
    {
      items := [];
    }

    /** POST /items: append `{id: now, name}` and answer 201 with it. */
    method Create(now: int, name: string) returns (resp: Response)
      modifies this
      ensures |items| == |old(items)| + 1
      ensures items[..|old(items)|] == old(items)
      ensures items[|items| - 1] == Item(now, name)
      ensures resp == Response(201, ItemBody(Item(now, name)))
    {
      var item := Item(now, name);
      items := items + [item];
      resp := Response(201, ItemBody(item));
    }

    /** GET /items: answer 200 with the whole list, in order; nothing changes. */
    method Read() returns (resp: Response)
      ensures resp.status == 200 && resp.body.ItemList?
      ensures resp.body.items == items
    {
      resp := Response(200, ItemList(items));
    }

    /**
      PUT /items/:id: rename the first record whose id matches and answer
      with it, or answer 404 and change nothing.
     */
    method Update(id: Option<int>, name: string) returns (resp: Response)
      modifies this
      ensures FindFirst(old(items), id).None? ==>
                items == old(items) && resp == Response(404, Message("Not found"))
      ensures FindFirst(old(items), id).Some? ==>
                var k := FindFirst(old(items), id).value;
                && |items| == |old(items)|
                && items[k] == Item(old(items)[k].id, name)
                && (forall j :: 0 <= j < |items| && j != k ==> items[j] == old(items)[j])
                && resp == Response(200, ItemBody(items[k]))
      ensures |items| == |old(items)|
      ensures forall j :: 0 <= j < |items| ==> items[j].id == old(items)[j].id
    {
      match FindFirst(items, id)
      case None =>
        resp := Response(404, Message("Not found"));
      case Some(k) =>
        items := items[k := items[k].(name := name)];
        resp := Response(200, ItemBody(items[k]));
    }

    /**
      DELETE /items/:id: drop every record whose id matches, keep the rest
      in order, and answer "Deleted" whether or not anything matched.
     */
    method Delete(id: Option<int>) returns (resp: Response)
      modifies this
      ensures items == Remove(old(items), id)
      ensures forall j :: 0 <= j < |items| ==> !Matches(items[j], id)
      ensures |items| <= |old(items)|
      ensures FindFirst(old(items), id).None? ==> items == old(items)
      ensures resp == Response(200, Message("Deleted"))
    {
      if FindFirst(items, id).None? {
        RemoveUnmatched(items, id);
      }
      items := Remove(items, id);
      resp := Response(200, Message("Deleted"));
    }
  }

  /** Filtering distributes over concatenation, so survivors keep their relative order. */
  lemma {:induction false} RemoveConcat(a: seq<Item>, b: seq<Item>, id: Option<int>)
    ensures Remove(a + b, id) == Remove(a, id) + Remove(b, id)
  {
    if a == [] {
      assert a + b == b;
    } else {
      assert (a + b)[1..] == a[1..] + b;
      RemoveConcat(a[1..], b, id);
    }
  }

  /** Every record that does not match survives a delete as many times as it was stored. */
  lemma {:induction false} RemoveKeepsOthers(s: seq<Item>, id: Option<int>, x: Item)
    requires !Matches(x, id)
    ensures multiset(Remove(s, id))[x] == multiset(s)[x]
  {
    if s != [] {
      assert s == [s[0]] + s[1..];
      RemoveKeepsOthers(s[1..], id, x);
    }
  }

  /** When no record matches, deleting changes nothing. */
  lemma {:induction false} RemoveUnmatched(s: seq<Item>, id: Option<int>)
    requires FindFirst(s, id).None?
    ensures Remove(s, id) == s
  {
    if s != [] {
      assert !Matches(s[0], id);
      RemoveUnmatched(s[1..], id);
      assert [s[0]] + s[1..] == s;
    }
  }

  /** Deleting the same id twice leaves the same store as deleting it once. */
  lemma {:induction false} RemoveIdempotent(s: seq<Item>, id: Option<int>)
    ensures Remove(Remove(s, id), id) == Remove(s, id)
  {
    RemoveUnmatched(Remove(s, id), id);
  }

  /** A NaN id matches nothing: update finds no record and delete is a no-op. */
  lemma {:induction false} NotANumberMatchesNothing(s: seq<Item>)
    ensures FindFirst(s, None) == None
    ensures Remove(s, None) == s
  {
    RemoveUnmatched(s, None);
  }

  /** Delete shrinks the store exactly when update would find a record. */
  lemma {:induction false} RemoveShrinksIffFound(s: seq<Item>, id: Option<int>)
    ensures |Remove(s, id)| < |s| <==> FindFirst(s, id).Some?
  {
    if s != [] && !Matches(s[0], id) {
      RemoveShrinksIffFound(s[1..], id);
    }
  }

  /** Renaming a record leaves every id in place, so later lookups hit the same index. */
  lemma {:induction false} RenameKeepsLookup(s: seq<Item>, k: nat, name: string, id: Option<int>)
    requires k < |s|
    ensures FindFirst(s[k := s[k].(name := name)], id) == FindFirst(s, id)
  {
    if k > 0 && !Matches(s[0], id) {
      assert s[k := s[k].(name := name)][1..] == s[1..][k - 1 := s[k].(name := name)];
      RenameKeepsLookup(s[1..], k - 1, name, id);
    }
  }

  /**
    After a create, update by the new id finds the new record unless an
    earlier record already carries the same timestamp.
   */
  lemma {:induction false} FindAfterAppend(s: seq<Item>, x: Item, id: Option<int>)
    ensures FindFirst(s + [x], id) ==
              if FindFirst(s, id).Some? then FindFirst(s, id)
              else if Matches(x, id) then Some(|s|)
              else None
  {
    if s != [] && !Matches(s[0], id) {
      assert (s + [x])[1..] == s[1..] + [x];
      FindAfterAppend(s[1..], x, id);
    }
  }
}
