/** The local client list of src/hooks/useClients.ts: after each successful remote call the
    list is rebuilt by a pure expression (spread + sort, map + sort, filter). */
module Clients {
  import opened Types

  /** Code-point lexicographic order on names; it stands for `localeCompare(...) <= 0`. */
  predicate NameLe(a: string, b: string)
    decreases |a|
  {
    |a| == 0 || (|b| > 0 && (a[0] < b[0] || (a[0] == b[0] && NameLe(a[1..], b[1..]))))
  }

  lemma {:induction false} NameLeTotal(a: string, b: string)
    ensures NameLe(a, b) || NameLe(b, a)
    decreases |a|
  {
    if |a| > 0 && |b| > 0 && a[0] == b[0] {
      NameLeTotal(a[1..], b[1..]);
    }
  }

  lemma {:induction false} NameLeTransitive(a: string, b: string, c: string)
    requires NameLe(a, b) && NameLe(b, c)
    ensures NameLe(a, c)
    decreases |a|
  {
    if |a| > 0 && a[0] == b[0] && b[0] == c[0] {
      NameLeTransitive(a[1..], b[1..], c[1..]);
    }
  }

  predicate SortedByName(s: seq<Client>)
  {
    forall i, j :: 0 <= i < j < |s| ==> NameLe(s[i].name, s[j].name)
  }

  /** Places `c` after every leading client whose name does not sort after it. */
  function InsertByName(s: seq<Client>, c: Client): (r: seq<Client>)
    ensures |r| == |s| + 1
    ensures multiset(r) == multiset(s) + multiset{c}
  {
    if s == [] then [c]
    else if NameLe(s[0].name, c.name) then
      assert s == [s[0]] + s[1..];
      [s[0]] + InsertByName(s[1..], c)
    else [c] + s
  }

  lemma {:induction false} InsertKeepsSorted(s: seq<Client>, c: Client)
    requires SortedByName(s)
    ensures SortedByName(InsertByName(s, c))
  {
    if s == [] {
    } else if NameLe(s[0].name, c.name) {
      var rest := InsertByName(s[1..], c);
      InsertKeepsSorted(s[1..], c);
      forall j | 0 <= j < |rest|
        ensures NameLe(s[0].name, rest[j].name)
      {
        assert rest[j] in multiset(rest);
        if rest[j] != c {
          assert rest[j] in multiset(s[1..]);
          var k :| 0 <= k < |s[1..]| && s[1..][k] == rest[j];
          assert s[k + 1] == rest[j];
        }
      }
      assert InsertByName(s, c) == [s[0]] + rest;
    } else {
      NameLeTotal(s[0].name, c.name);
      forall j | 0 <= j < |s|
        ensures NameLe(c.name, s[j].name)
      {
        if j > 0 {
          NameLeTransitive(c.name, s[0].name, s[j].name);
        }
      }
    }
  }

  /** The list re-sorted by name (a stable insertion sort). */
  function SortByName(s: seq<Client>): (r: seq<Client>)
    ensures |r| == |s|
    ensures multiset(r) == multiset(s)
    ensures SortedByName(r)
  {
    if s == [] then []
    else
      var init := SortByName(s[..|s| - 1]);
      assert s == s[..|s| - 1] + [s[|s| - 1]];
      InsertKeepsSorted(init, s[|s| - 1]);
      InsertByName(init, s[|s| - 1])
  }

  /** `prev.map(client => client.id === id ? data : client)`. */
  function ReplaceById(s: seq<Client>, id: string, data: Client): (r: seq<Client>)
    ensures |r| == |s|
    ensures forall k :: 0 <= k < |s| ==> r[k] == if s[k].id == id then data else s[k]
  {
    if s == [] then [] else [if s[0].id == id then data else s[0]] + ReplaceById(s[1..], id, data)
  }

  /** `prev.filter(client => client.id !== id)`. */
  function RemoveById(s: seq<Client>, id: string): (r: seq<Client>)
    ensures |r| <= |s|
    ensures forall c :: c in r <==> c in s && c.id != id
  {
    if s == [] then []
    else if s[0].id == id then RemoveById(s[1..], id)
    else [s[0]] + RemoveById(s[1..], id)
  }

  /** The filter works element by element, so it keeps the survivors' relative order. */
  lemma {:induction false} RemoveByIdConcat(a: seq<Client>, b: seq<Client>, id: string)
    ensures RemoveById(a + b, id) == RemoveById(a, id) + RemoveById(b, id)
  {
    if a != [] {
      assert (a + b)[1..] == a[1..] + b;
      RemoveByIdConcat(a[1..], b, id);
    } else {
      assert a + b == b;
    }
  }

  lemma {:induction false} RemoveKeepsSorted(s: seq<Client>, id: string)
    requires SortedByName(s)
    ensures SortedByName(RemoveById(s, id))
  {
    if s != [] {
      var rest := RemoveById(s[1..], id);
      RemoveKeepsSorted(s[1..], id);
      if s[0].id != id {
        forall j | 0 <= j < |rest|
          ensures NameLe(s[0].name, rest[j].name)
        {
          assert rest[j] in rest;
          var k :| 0 <= k < |s[1..]| && s[1..][k] == rest[j];
          assert s[k + 1] == rest[j];
        }
      }
    }
  }

  const CreateErrorMessage: string := "Erro ao criar cliente"
  const UpdateErrorMessage: string := "Erro ao atualizar cliente"
  const DeleteErrorMessage: string := "Erro ao excluir cliente"

  /** `Omit<Client, 'id' | 'user_id' | 'created_at'>`. */
  datatype NewClient = NewClient(name: string, email: string, phone: Option<string>)

  /** What the store assigns to an inserted client. */
  datatype InsertedRow = InsertedRow(id: string, createdAt: string)

  /** The hook's `clients` list and `error` message. */
  class ClientList {
    var clients: seq<Client>
    var error: Option<string>

    constructor ()
      ensures clients == [] && error == None
    {
      clients := [];
      error := None;
    }

    /** `createClient`; `inserted` is the store's answer (`None` when the insert fails). */
    method CreateClient(user: Option<User>, input: NewClient, inserted: Option<InsertedRow>)
      returns (created: Option<Client>)
      modifies this
      ensures user.None? ==> created.None? && clients == old(clients) && error == old(error)
      ensures user.Some? && inserted.None? ==>
                created.None? && clients == old(clients) && error == Some(CreateErrorMessage)
      ensures user.Some? && inserted.Some? ==>
                && created == Some(Client(inserted.value.id, user.value.id, input.name, input.email,
                                          input.phone, inserted.value.createdAt))
                && clients == SortByName(old(clients) + [created.value])
                && |clients| == |old(clients)| + 1
                && multiset(clients) == multiset(old(clients)) + multiset{created.value}
                && SortedByName(clients)
                && error == old(error)
    {
      if user.None? {
        return None;
      }
      if inserted.None? {
        error := Some(CreateErrorMessage);
        return None;
      }
      var data := Client(inserted.value.id, user.value.id, input.name, input.email,
                         input.phone, inserted.value.createdAt);
      clients := SortByName(clients + [data]);
      created := Some(data);
    }

    /** `updateClient`; `returned` is the updated row (`None` when the update fails). */
    method UpdateClient(id: string, returned: Option<Client>) returns (updated: Option<Client>)
      modifies this
      ensures updated == returned
      ensures returned.None? ==> clients == old(clients) && error == Some(UpdateErrorMessage)
      ensures returned.Some? ==>
                && clients == SortByName(ReplaceById(old(clients), id, returned.value))
                && |clients| == |old(clients)|
                && multiset(clients) == multiset(ReplaceById(old(clients), id, returned.value))
                && SortedByName(clients)
                && error == old(error)
    {
      if returned.None? {
        error := Some(UpdateErrorMessage);
        return None;
      }
      clients := SortByName(ReplaceById(clients, id, returned.value));
      updated := returned;
    }

    /** `deleteClient`; `deleted` says whether the remote delete succeeds. */
    method DeleteClient(id: string, deleted: bool) returns (ok: bool)
      modifies this
      ensures ok == deleted
      ensures !deleted ==> clients == old(clients) && error == Some(DeleteErrorMessage)
      ensures deleted ==>
                && clients == RemoveById(old(clients), id)
                && (forall c :: c in clients <==> c in old(clients) && c.id != id)
                && (SortedByName(old(clients)) ==> SortedByName(clients))
                && error == old(error)
    {
      if !deleted {
        error := Some(DeleteErrorMessage);
        return false;
      }
      if SortedByName(clients) {
        RemoveKeepsSorted(clients, id);
      }
      clients := RemoveById(clients, id);
      ok := true;
    }
  }
}
