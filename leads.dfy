/**
 * Queries over the ordered lead list that several views share: the status
 * filter (`leads.filter(l => l.status === s)`), the lookup of a lead by id
 * (`leads.find(l => l.id === id)`), and JavaScript truthiness of an optional
 * string.
 */
module Leads {
  import opened Wrappers
  import opened Types

  /** The leads with status `s`, in store order. */
  function ByStatus(leads: seq<Lead>, s: LeadStatus): (r: seq<Lead>)
    ensures |r| <= |leads|
    ensures forall l :: l in r <==> l in leads && l.status == s
    decreases |leads|
  {
    if leads == [] then []
    else if leads[0].status == s then [leads[0]] + ByStatus(leads[1..], s)
    else ByStatus(leads[1..], s)
  }

  /**
   * Filtering distributes over concatenation; with `ByStatus([l], s)` being
   * `[l]` or `[]` this pins down the result as the order-preserving sublist.
   */
  lemma {:induction false} ByStatusAppend(a: seq<Lead>, b: seq<Lead>, s: LeadStatus)
    ensures ByStatus(a + b, s) == ByStatus(a, s) + ByStatus(b, s)
    decreases |a|
  {
    if a == [] {
      assert a + b == b;
    } else {
      assert (a + b)[0] == a[0];
      assert (a + b)[1..] == a[1..] + b;
      ByStatusAppend(a[1..], b, s);
    }
  }

  lemma ByStatusSingle(l: Lead, s: LeadStatus)
    ensures ByStatus([l], s) == if l.status == s then [l] else []
  {
    assert [l][1..] == [];
  }

  /** Every lead with status `s` is kept, so a list of such leads filters to itself. */
  lemma {:induction false} ByStatusAll(leads: seq<Lead>, s: LeadStatus)
    requires forall i :: 0 <= i < |leads| ==> leads[i].status == s
    ensures ByStatus(leads, s) == leads
    decreases |leads|
  {
    if leads != [] {
      ByStatusAll(leads[1..], s);
    }
  }

  /** Each lead lies in exactly one status group, so the group sizes add up. */
  lemma {:induction false} StatusPartition(leads: seq<Lead>)
    ensures |ByStatus(leads, New)| + |ByStatus(leads, Contacted)| + |ByStatus(leads, Won)| == |leads|
    decreases |leads|
  {
    if leads != [] {
      StatusPartition(leads[1..]);
    }
  }

  /** Index `i` holds the first lead whose id is `id`. */
  predicate FirstWithId(leads: seq<Lead>, id: string, i: int) {
    0 <= i < |leads| && leads[i].id == id && forall j :: 0 <= j < i ==> leads[j].id != id
  }

  /** `leads.find(l => l.id === id)`: the first lead with that id, if any. */
  function Find(leads: seq<Lead>, id: string): (r: Option<Lead>)
    ensures r.None? <==> forall i :: 0 <= i < |leads| ==> leads[i].id != id
    ensures r.Some? ==> exists i :: FirstWithId(leads, id, i) && leads[i] == r.value
    decreases |leads|
  {
    if leads == [] then None
    else if leads[0].id == id then
      assert FirstWithId(leads, id, 0);
      Some(leads[0])
    else
      var r := Find(leads[1..], id);
      assert r.Some? ==> exists i :: FirstWithId(leads, id, i) && leads[i] == r.value by {
        if r.Some? {
          var i :| FirstWithId(leads[1..], id, i) && leads[1..][i] == r.value;
          assert FirstWithId(leads, id, i + 1);
        }
      }
      r
  }

  /**
   * `leads.find(l => l.id === selectedId)` where the selected id may be
   * `null`; no lead's id is `null`, so nothing is found then.
   */
  function FindSelected(leads: seq<Lead>, selected: Option<string>): (r: Option<Lead>)
    ensures selected.None? ==> r.None?
    ensures r.Some? ==> r.value in leads && Some(r.value.id) == selected
  {
    if selected.None? then None else Find(leads, selected.value)
  }

  /** JavaScript truthiness of a `string | null`: set and not empty. */
  predicate Truthy(s: Option<string>) {
    s.Some? && s.value != ""
  }

  /**
   * The five editable fields of a lead as the lead form holds them; a
   * missing description reads as the empty string.
   */
  function FormOf(l: Lead): LeadFields {
    LeadFields(l.companyName, l.email, l.problemType, l.problemDescription.GetOr(""), l.gdprConfirmed)
  }

  /** No two leads share an id. */
  predicate UniqueIds(leads: seq<Lead>) {
    forall i, j :: 0 <= i < j < |leads| ==> leads[i].id != leads[j].id
  }

  /** With unique ids, `Find` returns the single lead with that id. */
  lemma FindUnique(leads: seq<Lead>, k: int)
    requires UniqueIds(leads) && 0 <= k < |leads|
    ensures Find(leads, leads[k].id) == Some(leads[k])
  {
  }
}
