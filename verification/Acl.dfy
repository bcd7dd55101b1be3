/** The daemon's access lists: a string tree of entries, scanned in key order with an early
    exit (`ubusd_acl.c`). */
module Acl {
  import opened CStrings
  import opened Options
  import Seqs

  /** An element of the "methods" array; only strings count. */
  datatype Attr = StringAttr(text: CStr) | OtherAttr

  datatype Entry = Entry(
    key: CStr, partial: bool,
    user: Option<CStr>, group: Option<CStr>, uid: int, gid: int,
    methods: Option<seq<Attr>>, priv: Option<string>,
    subscribe: bool, publish: bool, listen: bool, send: bool)

  datatype Cred = Cred(uid: int, gid: int, extraGid: seq<int>)

  datatype Access = Publish | Subscribe | Listen | Send | Invoke

  /** One record of the reply to an ACL query. */
  datatype Grant = Grant(obj: CStr, user: Option<CStr>, group: Option<CStr>, priv: string)

  /** The tree order; equal keys are allowed. */
  ghost predicate Sorted(entries: seq<Entry>) {
    forall i, j {:trigger Leq(entries[i].key, entries[j].key)} ::
      0 <= i < j < |entries| ==> Leq(entries[i].key, entries[j].key)
  }

  /** An entry has come in front of exactly those with greater keys, and all others are as they were. */
  ghost predicate InsertedAt(before: seq<Entry>, e: Entry, after: seq<Entry>, i: nat) {
    && i <= |before| && after == before[..i] + [e] + before[i..]
    && forall k :: 0 <= k < |before| ==> (k < i <==> Leq(before[k].key, e.key))
  }

  // ----- the plain rules, with no scan order -----

  /** The uid or one of the gids of the entry is the client's; -1 stands for "not set". */
  predicate CredMatches(cl: Cred, e: Entry) {
    || (e.uid != -1 && cl.uid == e.uid)
    || (e.gid != -1 && (cl.gid == e.gid || e.gid in cl.extraGid))
  }

  predicate Grants(e: Entry, access: Access, meth: Option<CStr>) {
    match access
    case Publish => e.publish
    case Subscribe => e.subscribe
    case Listen => e.listen
    case Send => e.send
    case Invoke =>
      && e.methods.Some?
      && meth.Some?
      && (StringAttr(meth.value) in e.methods.value || StringAttr("*") in e.methods.value)
  }

  /** The entry lets the client perform the access on the named object. */
  predicate Permits(e: Entry, cl: Cred, obj: CStr, meth: Option<CStr>, access: Access) {
    Matches(e.key, e.partial, obj) && CredMatches(cl, e) && Grants(e, access, meth)
  }

  /** The access rule itself: the daemon, root and unnamed objects pass, and otherwise some
      entry must permit the access. */
  ghost predicate Allowed(entries: seq<Entry>, cl: Option<Cred>, obj: Option<CStr>,
                          meth: Option<CStr>, access: Access) {
    || cl.None?
    || cl.value.uid == 0
    || obj.None?
    || exists e :: e in entries && Permits(e, cl.value, obj.value, meth, access)
  }

  function GrantOf(e: Entry, obj: CStr): seq<Grant> {
    if e.priv.Some? && Matches(e.key, e.partial, obj)
    then [Grant(obj, e.user, e.group, e.priv.value)]
    else []
  }

  /** The reply to a query about one object: every matching entry with private data. */
  function MatchingGrants(entries: seq<Entry>, obj: CStr): seq<Grant> {
    if entries == [] then [] else GrantOf(entries[0], obj) + MatchingGrants(entries[1..], obj)
  }

  lemma {:induction false} MatchingGrantsSplit(a: seq<Entry>, b: seq<Entry>, obj: CStr)
    ensures MatchingGrants(a + b, obj) == MatchingGrants(a, obj) + MatchingGrants(b, obj)
  {
    hide GrantOf;
    if a == [] {
      assert a + b == b;
    } else {
      MatchingGrantsSplit(a[1..], b, obj);
      assert (a + b)[0] == a[0] && (a + b)[1..] == a[1..] + b;
      Seqs.Assoc(GrantOf(a[0], obj), MatchingGrants(a[1..], obj), MatchingGrants(b, obj));
    }
  }

  lemma MatchingGrantsSnoc(entries: seq<Entry>, i: nat, obj: CStr)
    requires i < |entries|
    ensures MatchingGrants(entries[..i + 1], obj) == MatchingGrants(entries[..i], obj) + GrantOf(entries[i], obj)
  {
    assert entries[..i + 1] == entries[..i] + [entries[i]];
    MatchingGrantsSplit(entries[..i], [entries[i]], obj);
    assert MatchingGrants([entries[i]][1..], obj) == [];
  }

  lemma {:induction false} NoMatchNoGrants(entries: seq<Entry>, i: nat, obj: CStr)
    requires i <= |entries|
    requires forall k :: i <= k < |entries| ==> !Matches(entries[k].key, entries[k].partial, obj)
    ensures MatchingGrants(entries[i..], obj) == []
    decreases |entries| - i
  {
    if i < |entries| {
      NoMatchNoGrants(entries, i + 1, obj);
      assert entries[i..][1..] == entries[i + 1..];
    }
  }

  /** Past the entry where the shared prefix shrinks, nothing matches. */
  lemma NothingMatchesFrom(entries: seq<Entry>, last: nat, i: nat, obj: CStr)
    requires Sorted(entries)
    requires last < i < |entries|
    requires Lcp(obj, entries[i].key) < Lcp(obj, entries[last].key)
    ensures forall k :: i <= k < |entries| ==> !Matches(entries[k].key, entries[k].partial, obj)
  {
    forall k | i <= k < |entries|
      ensures !Matches(entries[k].key, entries[k].partial, obj)
    {
      if k == i { LeqReflexive(entries[i].key); }
      NoMatchAfterShrink(entries[last].key, entries[i].key, entries[k].key, entries[k].partial, obj);
    }
  }

  /** Stopping there loses no record. */
  lemma GrantsEndAtShrink(entries: seq<Entry>, last: nat, i: nat, obj: CStr)
    requires Sorted(entries)
    requires last < i < |entries|
    requires Lcp(obj, entries[i].key) < Lcp(obj, entries[last].key)
    ensures MatchingGrants(entries, obj) == MatchingGrants(entries[..i], obj)
  {
    hide MatchingGrants, Sorted;
    NothingMatchesFrom(entries, last, i, obj);
    NoMatchNoGrants(entries, i, obj);
    MatchingGrantsSplit(entries[..i], entries[i..], obj);
    assert entries == entries[..i] + entries[i..];
  }

  // ----- the scans -----

  /** `ubusd_acl_match_cred`: 0 when the credentials match, -1 when not. */
  method MatchCred(cl: Cred, e: Entry) returns (rc: int)
    ensures rc == 0 || rc == -1
    ensures rc == 0 <==> CredMatches(cl, e)
  {
    if e.uid != -1 && cl.uid == e.uid {
      return 0;
    }
    if e.gid != -1 {
      if cl.gid == e.gid {
        return 0;
      }
      for i := 0 to |cl.extraGid|
        invariant e.gid !in cl.extraGid[..i]
      {
        if cl.extraGid[i] == e.gid {
          return 0;
        }
      }
      assert cl.extraGid == cl.extraGid[..|cl.extraGid|];
    }
    return -1;
  }

  /** The method-list part of the access switch. */
  method ListsMethod(methods: seq<Attr>, meth: CStr) returns (found: bool)
    ensures found <==> StringAttr(meth) in methods || StringAttr("*") in methods
  {
    for i := 0 to |methods|
      invariant StringAttr(meth) !in methods[..i] && StringAttr("*") !in methods[..i]
    {
      var cur := methods[i];
      if cur.StringAttr? {
        if meth == cur.text || "*" == cur.text {
          return true;
        }
      }
    }
    assert methods == methods[..|methods|];
    return false;
  }

  /** The access switch of `ubusd_acl_check`. */
  method GrantsAccess(e: Entry, access: Access, meth: Option<CStr>) returns (granted: bool)
    requires access.Invoke? ==> meth.Some?
    ensures granted == Grants(e, access, meth)
  {
    match access {
      case Publish => granted := e.publish;
      case Subscribe => granted := e.subscribe;
      case Listen => granted := e.listen;
      case Send => granted := e.send;
      case Invoke =>
        granted := false;
        if e.methods.Some? {
          granted := ListsMethod(e.methods.value, meth.value);
        }
    }
  }

  class Table {
    var entries: seq<Entry>

    ghost predicate Valid()
      reads this
    {
      Sorted(entries)
    }

    constructor ()
      ensures Valid() && entries == []
    {
      entries := [];
    }

    /** `ubusd_acl_alloc_obj`: an entry named by a pattern text is inserted after its equals.
        An empty text adds nothing.  The entry matches what the text says: with a trailing
        star every name it begins, otherwise only itself.  It grants nothing yet. */
    method AllocObj(text: CStr, user: Option<CStr>, group: Option<CStr>, uid: int, gid: int)
      returns (added: Option<Entry>)
      requires Valid()
      modifies this
      ensures Valid()
      ensures added.None? <==> text == ""
      ensures added.None? ==> entries == old(entries)
      ensures added.Some? ==>
        && (exists i :: InsertedAt(old(entries), added.value, entries, i))
        && added.value.user == user && added.value.group == group
        && added.value.uid == uid && added.value.gid == gid && added.value.priv.None?
        && (forall access, meth :: !Grants(added.value, access, meth))
        && forall name: CStr :: Matches(added.value.key, added.value.partial, name) <==>
             if text[|text| - 1] == '*' then IsPrefix(text[..|text| - 1], name) else name == text
    {
      var len := |text|;
      if len == 0 {
        return None;
      }
      var partial := false;
      if text[len - 1] == '*' {
        partial := true;
        len := len - 1;
      }
      var e := Entry(text[..len], partial, user, group, uid, gid, None, None, false, false, false, false);
      assert !partial ==> text[..len] == text;
      Insert(e);
      added := Some(e);
    }

    /** `avl_insert` in a tree that allows equal keys. */
    method Insert(e: Entry)
      requires Valid()
      modifies this
      ensures Valid()
      ensures exists i :: InsertedAt(old(entries), e, entries, i)
    {
      var i := 0;
      while i < |entries| && NotAfter(entries[i].key, e.key)
        invariant 0 <= i <= |entries|
        invariant forall k :: 0 <= k < i ==> Leq(entries[k].key, e.key)
      {
        i := i + 1;
      }
      forall k | i <= k < |entries|
        ensures Leq(e.key, entries[k].key) && !Leq(entries[k].key, e.key)
      {
        LeqTotal(e.key, entries[i].key);
        if i < k {
          LeqTransitive(e.key, entries[i].key, entries[k].key);
          if Leq(entries[k].key, e.key) { LeqTransitive(entries[i].key, entries[k].key, e.key); }
        }
      }
      entries := entries[..i] + [e] + entries[i..];
      assert InsertedAt(old(entries), e, entries, i);
    }

    /** `ubusd_acl_check`: the scan stops as soon as the shared prefix gets shorter, and still
        decides exactly the plain rule. */
    method Check(cl: Option<Cred>, obj: Option<CStr>, meth: Option<CStr>, access: Access)
      returns (rc: int)
      requires Valid()
      requires access.Invoke? ==> meth.Some?
      ensures rc == 0 || rc == -1
      ensures rc == 0 <==> Allowed(entries, cl, obj, meth, access)
    {
      if cl.None? || cl.value.uid == 0 || obj.None? {
        return 0;
      }
      var name := obj.value;
      var matchLen := 0;
      ghost var last := -1;
      for i := 0 to |entries|
        invariant -1 <= last < i
        invariant matchLen == if last < 0 then 0 else Lcp(name, entries[last].key)
        invariant forall k :: 0 <= k < i ==> !Permits(entries[k], cl.value, name, meth, access)
      {
        var e := entries[i];
        var full, cur := StrMatchLen(name, e.key);
        MatchByLength(e.key, e.partial, name);
        if cur < matchLen {
          NothingMatchesFrom(entries, last, i, name);
          return -1;
        }
        matchLen := cur;
        last := i;
        if !full {
          if !e.partial { continue; }
          if matchLen != |e.key| { continue; }
        }
        var cred := MatchCred(cl.value, e);
        if cred != 0 { continue; }
        var granted := GrantsAccess(e, access, meth);
        if granted {
          assert e in entries && Permits(e, cl.value, name, meth, access);
          return 0;
        }
      }
      return -1;
    }

    /** `ubusd_reply_add`: entries without private data are skipped before the prefix is even
        compared, and the records added are those of the plain filter, in tree order. */
    method ReplyAdd(obj: Option<CStr>) returns (added: seq<Grant>)
      requires Valid()
      ensures added == if obj.None? then [] else MatchingGrants(entries, obj.value)
    {
      added := [];
      if obj.None? { return; }
      var name := obj.value;
      var matchLen := 0;
      ghost var last := -1;
      for i := 0 to |entries|
        invariant -1 <= last < i
        invariant matchLen == if last < 0 then 0 else Lcp(name, entries[last].key)
        invariant added == MatchingGrants(entries[..i], name)
      {
        var e := entries[i];
        MatchingGrantsSnoc(entries, i, name);
        if e.priv.None? { continue; }
        var full, cur := StrMatchLen(name, e.key);
        MatchByLength(e.key, e.partial, name);
        if cur < matchLen {
          GrantsEndAtShrink(entries, last, i, name);
          return;
        }
        matchLen := cur;
        last := i;
        if !full {
          if !e.partial { continue; }
          if matchLen != |e.key| { continue; }
        }
        added := added + [Grant(name, e.user, e.group, e.priv.value)];
      }
      assert entries == entries[..|entries|];
    }
  }
}
