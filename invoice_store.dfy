/** The invoice store of `src/lib/invoice-store.ts`: one storage slot holding the whole
    collection, read, changed and written back by every operation. The list functions
    below say what each operation does to the collection; the class `Store` performs the
    operations on the slot. */
module InvoiceStore {
  import opened Wrappers
  import opened InvoiceTypes

  /** Position of the first record with the given id, or -1 when there is none
      (the answer of `findIndex`). */
  function FirstIndexOf(s: seq<StoredInvoice>, id: string): (r: int)
    ensures -1 <= r < |s|
    ensures r == -1 <==> !HasId(s, id)
    ensures 0 <= r ==> s[r].id == id && forall j :: 0 <= j < r ==> s[j].id != id
  {
    if |s| == 0 then -1
    else if s[0].id == id then 0
    else
      var k := FirstIndexOf(s[1..], id);
      if k == -1 then -1 else k + 1
  }

  /** The first record with the given id (the answer of `find`). */
  function Find(s: seq<StoredInvoice>, id: string): (r: Option<StoredInvoice>)
    ensures r.None? <==> !HasId(s, id)
    ensures r.Some? ==> r.value.id == id && exists k :: 0 <= k < |s| && s[k] == r.value && forall j :: 0 <= j < k ==> s[j].id != id
  {
    var k := FirstIndexOf(s, id);
    if k == -1 then None else Some(s[k])
  }

  /** The collection after an update with `u`: the first record sharing u's id is
      overwritten in place; when there is none the collection is unchanged. */
  function Replaced(s: seq<StoredInvoice>, u: StoredInvoice): (r: seq<StoredInvoice>)
    ensures |r| == |s|
    ensures !HasId(s, u.id) ==> r == s
    ensures HasId(s, u.id) ==> exists k :: 0 <= k < |s| && s[k].id == u.id && (forall j :: 0 <= j < k ==> s[j].id != u.id) && r == s[k := u]
  {
    var k := FirstIndexOf(s, u.id);
    if k == -1 then s else s[k := u]
  }

  /** The collection with every record of the given id filtered out. */
  function Without(s: seq<StoredInvoice>, id: string): (r: seq<StoredInvoice>)
    ensures |r| <= |s|
    ensures !HasId(r, id)
    ensures forall x :: x in r <==> x in s && x.id != id
  {
    if |s| == 0 then []
    else if s[0].id == id then Without(s[1..], id)
    else [s[0]] + Without(s[1..], id)
  }

  /** Looking up the id of a record just added finds that record, whatever older
      records share its id. */
  lemma FindAfterAdd(s: seq<StoredInvoice>, r: StoredInvoice)
    ensures Find([r] + s, r.id) == Some(r)
  {
  }

  /** The record an update wrote is the one found afterwards. */
  lemma FindAfterUpdate(s: seq<StoredInvoice>, u: StoredInvoice)
    requires HasId(s, u.id)
    ensures Find(Replaced(s, u), u.id) == Some(u)
  {
    var k := FirstIndexOf(s, u.id);
    assert Replaced(s, u)[k] == u;
  }

  /** An update replaces exactly the record at the first position carrying u's id. */
  lemma ReplacedAt(s: seq<StoredInvoice>, k: nat, u: StoredInvoice)
    requires k < |s| && s[k].id == u.id
    requires forall j :: 0 <= j < k ==> s[j].id != u.id
    ensures Replaced(s, u) == s[k := u]
  {
    var i := FirstIndexOf(s, u.id);
    assert i == k;
  }

  /** Deleting an id no record carries changes nothing. */
  lemma {:induction false} WithoutAbsent(s: seq<StoredInvoice>, id: string)
    requires !HasId(s, id)
    ensures Without(s, id) == s
  {
    if |s| > 0 {
      assert !HasId(s[1..], id) by {
        forall i | 0 <= i < |s[1..]| ensures s[1..][i].id != id {
          assert s[1..][i] == s[i + 1];
        }
      }
      WithoutAbsent(s[1..], id);
      assert s == [s[0]] + s[1..];
    }
  }

  /** Deleting twice is deleting once. */
  lemma WithoutIdempotent(s: seq<StoredInvoice>, id: string)
    ensures Without(Without(s, id), id) == Without(s, id)
  {
    WithoutAbsent(Without(s, id), id);
  }

  /** Deletion keeps the remaining records in their relative order: it filters each
      part of a collection independently. */
  lemma {:induction false} WithoutAppend(a: seq<StoredInvoice>, b: seq<StoredInvoice>, id: string)
    ensures Without(a + b, id) == Without(a, id) + Without(b, id)
  {
    if |a| == 0 {
      assert a + b == b;
    } else {
      assert (a + b)[0] == a[0];
      assert (a + b)[1..] == a[1..] + b;
      WithoutAppend(a[1..], b, id);
    }
  }

  /** A collection whose ids are unique and whose records are well formed. */
  predicate Consistent(s: seq<StoredInvoice>) {
    UniqueIds(s) && AllWellFormed(s)
  }

  /** Adding a well-formed record with a fresh id keeps the collection consistent. */
  lemma AddKeepsConsistent(s: seq<StoredInvoice>, r: StoredInvoice)
    requires Consistent(s) && WellFormed(r) && !HasId(s, r.id)
    ensures Consistent([r] + s)
  {
    var t := [r] + s;
    forall i, j | 0 <= i < j < |t| ensures t[i].id != t[j].id {
      if i == 0 {
        assert t[j] == s[j - 1];
      } else {
        assert t[i] == s[i - 1] && t[j] == s[j - 1];
      }
    }
  }

  /** Updating with a well-formed record keeps the collection consistent. */
  lemma UpdateKeepsConsistent(s: seq<StoredInvoice>, u: StoredInvoice)
    requires Consistent(s) && WellFormed(u)
    ensures Consistent(Replaced(s, u))
  {
  }

  /** Deleting keeps the collection consistent. */
  lemma {:induction false} DeleteKeepsConsistent(s: seq<StoredInvoice>, id: string)
    requires Consistent(s)
    ensures Consistent(Without(s, id))
  {
    if |s| > 0 {
      var tail := s[1..];
      assert Consistent(tail) by {
        forall i, j | 0 <= i < j < |tail| ensures tail[i].id != tail[j].id {
          assert tail[i] == s[i + 1] && tail[j] == s[j + 1];
        }
      }
      DeleteKeepsConsistent(tail, id);
      if s[0].id != id {
        var w := Without(tail, id);
        var t := [s[0]] + w;
        forall j | 0 < j < |t| ensures t[0].id != t[j].id {
          assert t[j] in w;
          var m :| 0 <= m < |tail| && tail[m] == t[j];
          assert tail[m] == s[m + 1];
        }
        assert t == Without(s, id);
      }
    }
  }

  /** The storage slot and the operations over it. */
  class Store {
    /** The stored collection; `None` until the first write. */
    var slot: Option<seq<StoredInvoice>>

    /** The collection as every read sees it. */
    function Contents(): seq<StoredInvoice>
      reads this
    {
      if slot.Some? then slot.value else []
    }

    constructor ()
      ensures slot == None
      ensures Contents() == []
    {
      slot := None;
    }

    /** `getInvoices`: the stored collection, or the empty one when nothing was written. */
    method GetInvoices() returns (invoices: seq<StoredInvoice>)
      ensures slot.None? ==> invoices == []
      ensures slot.Some? ==> invoices == slot.value
    {
      invoices := if slot.Some? then slot.value else [];
    }

    /** `saveInvoices`: overwrite the slot. */
    method SaveInvoices(invoices: seq<StoredInvoice>)
      modifies this
      ensures slot == Some(invoices)
    {
      slot := Some(invoices);
    }

    /** `addInvoice`: put the record in front; ids are not checked. */
    method AddInvoice(invoice: StoredInvoice)
      modifies this
      ensures Contents() == [invoice] + old(Contents())
    {
      var invoices := GetInvoices();
      SaveInvoices([invoice] + invoices);
    }

    /** `updateInvoice`: overwrite the first record with the same id; without one the
        slot is not even written. */
    method UpdateInvoice(updated: StoredInvoice)
      modifies this
      ensures Contents() == Replaced(old(Contents()), updated)
      ensures !HasId(old(Contents()), updated.id) ==> slot == old(slot)
      ensures HasId(old(Contents()), updated.id) ==>
        var k := FirstIndexOf(old(Contents()), updated.id);
        Contents()[k] == updated &&
        forall j :: 0 <= j < |Contents()| && j != k ==> Contents()[j] == old(Contents())[j]
    {
      var invoices := GetInvoices();
      var invoiceIndex := FirstIndexOf(invoices, updated.id);
      if invoiceIndex > -1 {
        invoices := invoices[invoiceIndex := updated];
        SaveInvoices(invoices);
      }
    }

    /** `getInvoiceById`: the first record with the id, or nothing. */
    method GetInvoiceById(id: string) returns (found: Option<StoredInvoice>)
      ensures found.None? <==> !HasId(Contents(), id)
      ensures found.Some? ==> found.value == Contents()[FirstIndexOf(Contents(), id)]
    {
      var invoices := GetInvoices();
      found := Find(invoices, id);
    }

    /** `deleteInvoice`: filter out every record with the id and write back. */
    method DeleteInvoice(id: string)
      modifies this
      ensures Contents() == Without(old(Contents()), id)
      ensures slot.Some?
    {
      var invoices := GetInvoices();
      invoices := Without(invoices, id);
      SaveInvoices(invoices);
    }
  }
}
