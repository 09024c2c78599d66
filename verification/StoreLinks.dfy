// Removing a session's uploads (clipstore/clipstore.go): its directory and every
// link a rename left that leads to it, through other links too.
module StoreLinks {
  import opened Ids
  import opened Options

  type Name = Text

  /** An entry of a user's directory: a link to another by its bare name, or not. */
  datatype Entry = Link(target: Name) | Real

  type Entries = map<Name, Entry>

  type Links = map<Name, Name>

  /** From name, following n links ends at the session. */
  predicate LeadsIn(links: Links, name: Name, session: Name, n: nat)
    decreases n
  {
    if n == 0 then name == session else name in links && LeadsIn(links, links[name], session, n - 1)
  }

  ghost predicate Leads(links: Links, name: Name, session: Name) {
    exists n: nat :: LeadsIn(links, name, session, n)
  }

  predicate ClosedFor(links: Links, gone: set<Name>, name: Name) {
    name in links && links[name] in gone ==> name in gone
  }

  lemma {:induction false} ClosedHasAll(links: Links, gone: set<Name>, name: Name, session: Name, n: nat)
    requires session in gone && (forall x :: ClosedFor(links, gone, x)) && LeadsIn(links, name, session, n)
    ensures name in gone
    decreases n
  {
    if n > 0 {
      ClosedHasAll(links, gone, links[name], session, n - 1);
      assert ClosedFor(links, gone, name);
    }
  }

  /** The links that can be read. */
  function LinksOf(entries: Entries, unreadable: set<Name>): Links {
    map x | x in entries && entries[x].Link? && x !in unreadable :: entries[x].target
  }

  // What leads to the session, in the directory's own entries.

  /** Each of these names but the last is a readable link to the next one. */
  predicate Chain(entries: Entries, unreadable: set<Name>, names: seq<Name>) {
    && names != []
    && forall i :: 0 <= i < |names| - 1 ==>
         names[i] in entries && names[i] !in unreadable && entries[names[i]] == Link(names[i + 1])
  }

  /** A chain of links goes from x to the session, or x is the session. */
  ghost predicate Reaches(entries: Entries, unreadable: set<Name>, x: Name, session: Name) {
    exists names :: Chain(entries, unreadable, names) && names[0] == x && names[|names| - 1] == session
  }

  lemma {:induction false} ChainLeads(entries: Entries, unreadable: set<Name>, names: seq<Name>)
    requires Chain(entries, unreadable, names)
    ensures LeadsIn(LinksOf(entries, unreadable), names[0], names[|names| - 1], |names| - 1)
  {
    if |names| > 1 {
      ChainLeads(entries, unreadable, names[1..]);
      assert entries[names[0]] == Link(names[1]);
    }
  }

  lemma {:induction false} LeadsByChain(entries: Entries, unreadable: set<Name>, x: Name, session: Name, n: nat)
    requires LeadsIn(LinksOf(entries, unreadable), x, session, n)
    ensures Reaches(entries, unreadable, x, session)
    decreases n
  {
    var names := [x];
    if n > 0 {
      var next := entries[x].target;
      LeadsByChain(entries, unreadable, next, session, n - 1);
      var rest :| Chain(entries, unreadable, rest) && rest[0] == next && rest[|rest| - 1] == session;
      names := [x] + rest;
    }
    assert Chain(entries, unreadable, names) && names[|names| - 1] == session;
  }

  lemma LeadsIsReaches(entries: Entries, unreadable: set<Name>, session: Name)
    ensures forall x :: Leads(LinksOf(entries, unreadable), x, session) <==> Reaches(entries, unreadable, x, session)
  {
    var links := LinksOf(entries, unreadable);
    forall x ensures Leads(links, x, session) <==> Reaches(entries, unreadable, x, session) {
      if Leads(links, x, session) {
        var n: nat :| LeadsIn(links, x, session, n);
        LeadsByChain(entries, unreadable, x, session, n);
      }
      if Reaches(entries, unreadable, x, session) {
        var names :| Chain(entries, unreadable, names) && names[0] == x && names[|names| - 1] == session;
        ChainLeads(entries, unreadable, names);
      }
    }
  }

  /** One pass over the links, in any order. */
  method Pass(links: Links, session: Name, gone: set<Name>) returns (gone': set<Name>, grew: bool)
    requires session in gone && forall x :: x in gone ==> Leads(links, x, session)
    ensures gone <= gone' && gone' - gone <= links.Keys && (grew <==> gone' != gone)
    ensures forall x :: x in gone' ==> Leads(links, x, session)
    ensures !grew ==> forall x :: ClosedFor(links, gone, x)
  {
    gone', grew := gone, false;
    var left := links.Keys;
    while left != {}
      invariant left <= links.Keys && gone <= gone' && gone' - gone <= links.Keys && (grew <==> gone' != gone)
      invariant forall x :: x in gone' ==> Leads(links, x, session)
      invariant !grew ==> forall x :: x in left || ClosedFor(links, gone, x)
      decreases left
    {
      var name :| name in left;
      left := left - {name};
      if name !in gone' && links[name] in gone' {
        ghost var n: nat :| LeadsIn(links, links[name], session, n);
        assert LeadsIn(links, name, session, n + 1);
        gone', grew := gone' + {name}, true;
      }
    }
  }

  /** The fixpoint is exactly the names that lead to the session, link cycles or
      not and whatever order each pass goes in: passes end because every one but
      the last takes a link not taken before. */
  method Gone(links: Links, session: Name) returns (gone: set<Name>)
    ensures forall x :: x in gone <==> Leads(links, x, session)
  {
    gone := {session};
    assert LeadsIn(links, session, session, 0);
    var grew := true;
    while grew
      invariant session in gone && forall x :: x in gone ==> Leads(links, x, session)
      invariant !grew ==> forall x :: ClosedFor(links, gone, x)
      decreases links.Keys - gone, grew
    {
      ghost var was := gone;
      gone, grew := Pass(links, session, gone);
      if grew {
        assert gone - was != {} by { assert gone == was + (gone - was); }
        ghost var x :| x in gone - was;
        assert x in links.Keys - was;
      }
    }
    forall x | Leads(links, x, session) ensures x in gone {
      var n: nat :| LeadsIn(links, x, session, n);
      ClosedHasAll(links, gone, x, session, n);
    }
  }

  /** What os.ReadDir answers for the user's directory. */
  datatype Listing = Missing | Failed | Listed

  datatype Outcome = Removed | Unsafe | NotListed | Stuck(name: Name)

  class UserDir {
    var entries: Entries

    constructor (entries: Entries)
      ensures this.entries == entries
    {
      this.entries := entries;
    }

    /** RemoveSession. `safe` is whether the user and the session are each one safe
        path element of their kind; nothing is looked at otherwise. `stuck` is what
        the disk will not remove (or look at). All
        that leads to the session goes and nothing else does; what is stuck stays,
        does not stop the rest, and is the error. */
    method RemoveSession(safe: bool, session: Name, listing: Listing, unreadable: set<Name>, stuck: set<Name>)
      returns (o: Outcome)
      modifies this
      ensures !safe ==> entries == old(entries) && o == Unsafe
      ensures safe && listing != Listed ==>
        entries == old(entries) && o == if listing == Missing then Removed else NotListed
      ensures safe && listing == Listed ==>
        var was := old(entries);
        && (forall x :: x in entries <==> x in was && (!Reaches(was, unreadable, x, session) || x in stuck))
        && (forall x :: x in entries ==> entries[x] == was[x])
        && (o == Removed <==> forall x :: x in was && Reaches(was, unreadable, x, session) ==> x !in stuck)
        && (o.Stuck? ==> o.name in was && Reaches(was, unreadable, o.name, session) && o.name in stuck)
      // Along any chain of links to the session, the session too, what is not stuck is gone.
      ensures safe && listing == Listed ==>
        forall names, x :: Chain(old(entries), unreadable, names) && names[|names| - 1] == session ==>
          (x in names && x in entries ==> x in stuck)
    {
      LeadsIsReaches(entries, unreadable, session);
      forall names, i: nat | Chain(entries, unreadable, names) && i < |names| && names[|names| - 1] == session
        ensures Reaches(entries, unreadable, names[i], session)
      {
        assert Chain(entries, unreadable, names[i..]);
      }
      if !safe { return Unsafe; }
      if listing == Missing { return Removed; }
      if listing == Failed { return NotListed; }
      var gone := Gone(LinksOf(entries, unreadable), session);
      ghost var was := entries;
      var first: Option<Name> := None;
      var left := gone;
      while left != {}
        invariant left <= gone
        invariant forall x :: x in entries <==> x in was && (x !in gone || x in left || x in stuck)
        invariant forall x :: x in entries ==> entries[x] == was[x]
        invariant first.None? <==> forall x :: x in was && x in gone && x !in left ==> x !in stuck
        invariant first.Some? ==> first.value in was && first.value in gone && first.value in stuck
        decreases left
      {
        var name :| name in left;
        left := left - {name};
        if name !in entries { continue; }
        if name !in stuck {
          entries := entries - {name};
        } else if first.None? {
          first := Some(name);
        }
      }
      return if first.Some? then Stuck(first.value) else Removed;
    }
  }

  /** After a removal that met no failure, with every link readable, no chain of
      links that starts at a name left ends at the session: none is it, none is a
      link to it, and none a link to one that leads there. */
  lemma NothingLeadsThere(before: Entries, after: Entries, session: Name, names: seq<Name>)
    requires forall x :: x in after <==> x in before && !Reaches(before, {}, x, session)
    requires forall x :: x in after ==> after[x] == before[x]
    requires Chain(after, {}, names) && names[0] in after
    ensures names[|names| - 1] != session
    ensures forall i :: 0 <= i < |names| && names[i] in after ==> after[names[i]] != Link(session)
  {
    assert Chain(before, {}, names);
    forall i | 0 <= i < |names| && names[i] in after ensures after[names[i]] != Link(session) {
      if after[names[i]] == Link(session) {
        assert Chain(before, {}, [names[i], session]);
      }
    }
  }
}
