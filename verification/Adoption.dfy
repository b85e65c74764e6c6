/** Adopting local checkpoint copies: link what can be linked, copy the rest within a
    tolerance, and account for every planned file and every byte. */
module Adoption {

  type Name = string

  datatype Source = Unreadable | Hashed(matches: bool)

  datatype Linking = Linked | CannotLink | Invalid | LinkError  // across devices or not permitted; changed; anything else

  datatype Copying = Copied | Differs | Unavailable | CopyError

  /** What happens to each planned source, and whether an amount of bytes fits on the disk
      when it is asked for. */
  datatype World = World(
    source: Name -> Source,
    link: Name -> Linking,
    copy: Name -> Copying,
    fits: (nat, nat) -> bool)

  datatype Outcome = Outcome(
    linked: seq<Name>,
    copied: seq<Name>,
    differs: seq<Name>,
    failures: seq<Name>,
    unavailable: seq<Name>,
    bytesWritten: nat)

  function Sum(sizes: map<Name, nat>, names: seq<Name>): nat
    requires forall n | n in names :: n in sizes
  {
    if names == [] then 0 else Sum(sizes, names[..|names| - 1]) + sizes[names[|names| - 1]]
  }

  lemma SumSnoc(sizes: map<Name, nat>, names: seq<Name>, n: Name)
    requires n in sizes && forall m | m in names :: m in sizes
    ensures Sum(sizes, names + [n]) == Sum(sizes, names) + sizes[n]
  {
    assert (names + [n])[..|names|] == names;
  }

  lemma {:induction false} SumConcat(sizes: map<Name, nat>, a: seq<Name>, b: seq<Name>)
    requires forall n | n in a + b :: n in sizes
    ensures (forall n | n in a :: n in sizes) && (forall n | n in b :: n in sizes)
    ensures Sum(sizes, a + b) == Sum(sizes, a) + Sum(sizes, b)
  {
    forall n | n in a ensures n in sizes {
      assert n in a + b;
    }
    forall n | n in b ensures n in sizes {
      assert n in a + b;
    }
    if b == [] {
      assert a + b == a;
    } else {
      var init := b[..|b| - 1];
      assert (a + b)[..|a + b| - 1] == a + init;
      assert forall n | n in a + init :: n in a + b;
      SumConcat(sizes, a, init);
    }
  }

  predicate NoRepeat(names: seq<Name>) {
    forall i, j | 0 <= i < j < |names| :: names[i] != names[j]
  }

  /** All names of an outcome, list by list. */
  function All(r: Outcome): multiset<Name> {
    multiset(r.linked) + multiset(r.copied) + multiset(r.differs) + multiset(r.failures) + multiset(r.unavailable)
  }

  datatype List = InLinked | InCopied | InDiffers | InFailures | InUnavailable

  /** Enter a name in one list; a copied name's bytes are counted. */
  function Enter(r: Outcome, list: List, n: Name, size: nat): Outcome {
    match list
    case InLinked => r.(linked := r.linked + [n])
    case InCopied => r.(copied := r.copied + [n], bytesWritten := r.bytesWritten + size)
    case InDiffers => r.(differs := r.differs + [n])
    case InFailures => r.(failures := r.failures + [n])
    case InUnavailable => r.(unavailable := r.unavailable + [n])
  }

  predicate IsIn(r: Outcome, list: List, n: Name) {
    match list
    case InLinked => n in r.linked
    case InCopied => n in r.copied
    case InDiffers => n in r.differs
    case InFailures => n in r.failures
    case InUnavailable => n in r.unavailable
  }

  lemma EnteredStay(r: Outcome, list: List, n: Name, size: nat)
    ensures IsIn(Enter(r, list, n, size), list, n)
    ensures forall l, m | IsIn(r, l, m) :: IsIn(Enter(r, list, n, size), l, m)
  {
  }

  lemma EnterOnce(r: Outcome, list: List, n: Name, size: nat)
    ensures All(Enter(r, list, n, size)) == All(r) + multiset{n}
  {
  }

  class Adopter {
    const world: World
    const sizes: map<Name, nat>  // the pinned sizes
    const tolerance: nat
    var result: Outcome
    var unplanned: nat  // bytes of links that became copies
    var asked: nat  // space checks so far
    ghost var checks: seq<nat>  // the bytes each space check asked for

    constructor (world: World, sizes: map<Name, nat>, tolerance: nat)
      ensures this.world == world && this.sizes == sizes && this.tolerance == tolerance
      ensures result == Outcome([], [], [], [], [], 0) && unplanned == 0 && asked == 0 && checks == []
    {
      this.world, this.sizes, this.tolerance := world, sizes, tolerance;
      result, unplanned, asked, checks := Outcome([], [], [], [], [], 0), 0, 0, [];
    }

    method RequireSpace(bytes: nat) returns (ok: bool)
      modifies `asked, `checks
      ensures checks == old(checks) + [bytes] && asked == old(asked) + 1 && ok == world.fits(old(asked), bytes)
    {
      ok := world.fits(asked, bytes);
      asked := asked + 1;
      checks := checks + [bytes];
    }

    ghost predicate Sized(names: seq<Name>) {
      forall n | n in names :: n in sizes
    }

    /** Exactly the handled names are in the lists, once each, and bytes are counted right. */
    ghost predicate Accounts(handled: seq<Name>)
      reads `result
    {
      && All(result) == multiset(handled)
      && Sized(result.copied)
      && result.bytesWritten == Sum(sizes, result.copied)
    }

    /** A right source that cannot be linked where the checkpoint lies. */
    predicate CannotLinkHere(n: Name) {
      world.source(n) == Hashed(true) && world.link(n).CannotLink?
    }

    /** Its copy would exceed the tolerance for unplanned bytes. */
    predicate Denied(n: Name, unplanned: nat)
      requires n in sizes
    {
      CannotLinkHere(n) && unplanned + sizes[n] > tolerance
    }

    /** Its copy is tried instead, after a space check. */
    predicate Asks(n: Name, unplanned: nat)
      requires n in sizes
    {
      CannotLinkHere(n) && unplanned + sizes[n] <= tolerance
    }

    /** Does placing this source abandon the adoption, given the bytes of links copied so far? */
    predicate Stops(n: Name, unplanned: nat)
      requires n in sizes
    {
      || (world.source(n) == Hashed(true) && world.link(n).LinkError?)
      || (Asks(n, unplanned) && (world.copy(n).CopyError? || world.copy(n).Unavailable?))
    }

    /** Where a source that was to be linked ends. */
    function ListOf(n: Name, unplanned: nat): List
      requires n in sizes
    {
      if world.source(n).Unreadable? then InUnavailable
      else if !world.source(n).matches then InDiffers
      else if world.link(n).Linked? then InLinked
      else if !world.link(n).CannotLink? then InUnavailable
      else if unplanned + sizes[n] > tolerance then InFailures
      else if world.copy(n).Copied? then InCopied
      else InDiffers
    }

    /** Where a source that was to be copied ends. */
    function CopyListOf(n: Name): List {
      if world.copy(n).Copied? then InCopied else if world.copy(n).Differs? then InDiffers else InUnavailable
    }

    /** The bytes of these links that became copies. */
    function Spent(names: seq<Name>): nat
      requires forall n | n in names :: n in sizes
    {
      if names == [] then 0
      else
        var n := names[|names| - 1];
        var before := Spent(names[..|names| - 1]);
        if Asks(n, before) && world.copy(n).Copied? then before + sizes[n] else before
    }

    /** The space checks these links need, each together with the planned copies. */
    function Asked(names: seq<Name>, planned: nat): seq<nat>
      requires forall n | n in names :: n in sizes
    {
      if names == [] then []
      else
        var n := names[|names| - 1];
        Asked(names[..|names| - 1], planned) + if Asks(n, Spent(names[..|names| - 1])) then [sizes[n] + planned] else []
    }

    lemma {:induction false} AskedGrows(names: seq<Name>, planned: nat, i: nat)
      requires Sized(names) && i <= |names|
      ensures forall n | n in names[..i] :: n in sizes
      ensures Asked(names[..i], planned) <= Asked(names, planned)
    {
      if i < |names| {
        var init := names[..|names| - 1];
        AskedGrows(init, planned, i);
        assert init[..i] == names[..i];
      } else {
        assert names[..i] == names;
      }
    }

    method Note(list: List, n: Name, ghost handled: seq<Name>)
      requires Accounts(handled) && n in sizes
      modifies `result
      ensures Accounts(handled + [n]) && result == Enter(old(result), list, n, sizes[n])
    {
      hide All, Enter, Sum;
      Entered(result, list, n, handled);
      result := Enter(result, list, n, sizes[n]);
    }

    lemma Entered(r: Outcome, list: List, n: Name, handled: seq<Name>)
      requires All(r) == multiset(handled) && Sized(r.copied) && r.bytesWritten == Sum(sizes, r.copied) && n in sizes
      ensures var e := Enter(r, list, n, sizes[n]);
              All(e) == multiset(handled + [n]) && Sized(e.copied) && e.bytesWritten == Sum(sizes, e.copied)
    {
      hide All, Sum;
      EnterOnce(r, list, n, sizes[n]);
      if list.InCopied? {
        SumSnoc(sizes, r.copied, n);
      }
    }

    /** What placing one link does: whether it goes on, where the name ends, which space check
        it makes and how many bytes it adds. */
    ghost predicate Placed(n: Name, planned: nat, ok: bool, was: Outcome, spent: nat, before: nat, had: seq<nat>)
      requires n in sizes
      reads this
    {
      && (ok <==> !Stops(n, spent) && (Asks(n, spent) ==> world.fits(before, sizes[n] + planned)))
      && (ok ==>
            && result == Enter(was, ListOf(n, spent), n, sizes[n])
            && unplanned == (if Asks(n, spent) && world.copy(n).Copied? then spent + sizes[n] else spent)
            && checks == had + (if Asks(n, spent) then [sizes[n] + planned] else [])
            && asked == before + if Asks(n, spent) then 1 else 0)
    }

    /** Copy a source that could not be linked, within the tolerance and after a space check. */
    method CopyInstead(n: Name, planned: nat, ghost handled: seq<Name>) returns (ok: bool)
      requires Accounts(handled) && n in sizes && unplanned <= tolerance && result.bytesWritten == unplanned
      modifies this
      ensures ok ==> Accounts(handled + [n]) && result.bytesWritten == unplanned
      ensures ok ==> result.failures == old(result).failures + if old(unplanned) + sizes[n] > tolerance then [n] else []
      ensures unplanned == old(unplanned) || unplanned == old(unplanned) + sizes[n] <= tolerance
      ensures checks == old(checks) || checks == old(checks) + [sizes[n] + planned]
      ensures unplanned > old(unplanned) ==> checks != old(checks)
      ensures CannotLinkHere(n) ==> Placed(n, planned, ok, old(result), old(unplanned), old(asked), old(checks))
    {
      hide Accounts;
      if unplanned + sizes[n] > tolerance {
        Note(InFailures, n, handled);
        return true;
      }
      ok := RequireSpace(sizes[n] + planned);
      if !ok {
        return;
      }
      match world.copy(n) {
        case Differs =>
          Note(InDiffers, n, handled);
        case Copied =>
          Note(InCopied, n, handled);
          unplanned := unplanned + sizes[n];
        case _ => ok := false;
      }
    }

    /** Place one source that was to be linked; false when the whole adoption is abandoned.
        `planned` are the bytes of all copies still to come. */
    method PlaceLink(n: Name, planned: nat, ghost handled: seq<Name>) returns (ok: bool)
      requires Accounts(handled) && n in sizes && unplanned <= tolerance && result.bytesWritten == unplanned
      modifies this
      ensures ok ==> Accounts(handled + [n]) && result.bytesWritten == unplanned
      ensures ok ==> result.failures == old(result).failures + if Denied(n, old(unplanned)) then [n] else []
      ensures unplanned == old(unplanned) || (unplanned == old(unplanned) + sizes[n] <= tolerance && CannotLinkHere(n))
      ensures checks == old(checks) || checks == old(checks) + [sizes[n] + planned]
      ensures unplanned > old(unplanned) ==> checks != old(checks)
      ensures Placed(n, planned, ok, old(result), old(unplanned), old(asked), old(checks))
    {
      hide Accounts;
      ok := true;
      var s := world.source(n);
      if s.Unreadable? {
        Note(InUnavailable, n, handled);
      } else if !s.matches {
        Note(InDiffers, n, handled);
      } else {
        match world.link(n) {
          case LinkError => ok := false;
          case Invalid => Note(InUnavailable, n, handled);
          case Linked => Note(InLinked, n, handled);
          case CannotLink => ok := CopyInstead(n, planned, handled);
        }
      }
    }

    /** Copy one planned source; false when the whole adoption is abandoned. */
    method PlaceCopy(n: Name, ghost handled: seq<Name>) returns (ok: bool)
      requires Accounts(handled) && n in sizes
      modifies `result
      ensures ok ==> Accounts(handled + [n])
      ensures old(result).bytesWritten <= result.bytesWritten <= old(result).bytesWritten + sizes[n]
      ensures ok <==> !world.copy(n).CopyError?
      ensures ok ==> result == Enter(old(result), CopyListOf(n), n, sizes[n])
    {
      hide Accounts;
      ok := true;
      match world.copy(n) {
        case Unavailable => Note(InUnavailable, n, handled);
        case Differs => Note(InDiffers, n, handled);
        case Copied => Note(InCopied, n, handled);
        case CopyError => ok := false;
      }
    }

    /** Each of these links is in the list where it must end. */
    ghost predicate LinksPlaced(r: Outcome, links: seq<Name>, i: nat)
      requires i <= |links| && Sized(links)
    {
      forall k | 0 <= k < i :: IsIn(r, ListOf(links[k], Spent(links[..k])), links[k])
    }

    /** Does placing some link abandon the adoption? */
    ghost predicate SomeStops(links: seq<Name>)
      requires Sized(links)
    {
      exists k :: 0 <= k < |links| && Stops(links[k], Spent(links[..k]))
    }

    /** Every one of these space checks succeeds when it is made. */
    predicate AllFit(checks: seq<nat>) {
      forall j | 0 <= j < |checks| :: world.fits(j, checks[j])
    }

    ghost predicate NoneStopped(links: seq<Name>, i: nat)
      requires i <= |links| && Sized(links)
    {
      forall k | 0 <= k < i :: !Stops(links[k], Spent(links[..k]))
    }

    lemma PlacedOne(links: seq<Name>, planned: nat, i: nat, was: Outcome)
      requires i < |links| && Sized(links) && NoneStopped(links, i)
      requires LinksPlaced(was, links, i)
      requires result == Enter(was, ListOf(links[i], Spent(links[..i])), links[i], sizes[links[i]])
      requires !Stops(links[i], Spent(links[..i]))
      ensures LinksPlaced(result, links, i + 1) && NoneStopped(links, i + 1)
      ensures var spent := Spent(links[..i]);
              && Spent(links[..i + 1]) == (if Asks(links[i], spent) && world.copy(links[i]).Copied? then spent + sizes[links[i]] else spent)
              && Asked(links[..i + 1], planned)
                 == Asked(links[..i], planned) + if Asks(links[i], spent) then [sizes[links[i]] + planned] else []
    {
      hide ListOf, IsIn, Stops, Asks;
      assert links[..i + 1][..i] == links[..i];
      EnteredStay(was, ListOf(links[i], Spent(links[..i])), links[i], sizes[links[i]]);
    }

    lemma AskedAt(links: seq<Name>, planned: nat, i: nat)
      requires Sized(links) && i < |links| && Asks(links[i], Spent(links[..i]))
      ensures var j := |Asked(links[..i], planned)|;
              j < |Asked(links, planned)| && Asked(links, planned)[j] == sizes[links[i]] + planned
    {
      hide Asks, Spent;
      AskedGrows(links, planned, i + 1);
      assert links[..i + 1][..i] == links[..i];
      var before, upto := Asked(links[..i], planned), Asked(links[..i + 1], planned);
      assert upto == before + [sizes[links[i]] + planned];
      hide Asked;
      assert upto[|before|] == sizes[links[i]] + planned;
    }

    lemma Failing(links: seq<Name>, planned: nat, i: nat)
      requires Sized(links) && i < |links|
      requires var n, spent := links[i], Spent(links[..i]);
               Stops(n, spent) || (Asks(n, spent) && !world.fits(|Asked(links[..i], planned)|, sizes[n] + planned))
      ensures SomeStops(links) || !AllFit(Asked(links, planned))
    {
      hide Stops, Asks, Asked, Spent;
      if !Stops(links[i], Spent(links[..i])) {
        AskedAt(links, planned, i);
      }
    }

    method PlaceLinks(links: seq<Name>, planned: nat) returns (ok: bool)
      requires Accounts([]) && Sized(links) && unplanned == 0 && result.bytesWritten == 0 && checks == [] && asked == 0
      modifies this
      ensures ok ==> Accounts(links) && result.bytesWritten == unplanned
      ensures unplanned <= tolerance
      ensures forall c | c in checks :: c >= planned
      ensures ok <==> !SomeStops(links) && AllFit(Asked(links, planned))
      ensures ok ==> LinksPlaced(result, links, |links|) && unplanned == Spent(links)
      ensures ok ==> checks == Asked(links, planned) && asked == |checks|
    {
      hide Denied, CannotLinkHere, Accounts, Asks, Stops, ListOf, IsIn, AllFit, SomeStops, Spent, Asked, NoneStopped, LinksPlaced;
      assert links[..0] == [];
      NoneStops(links, planned, 0);
      for i := 0 to |links|
        invariant Accounts(links[..i]) && result.bytesWritten == unplanned <= tolerance
        invariant forall c | c in checks :: c >= planned
        invariant unplanned == Spent(links[..i]) && checks == Asked(links[..i], planned) && asked == |checks|
        invariant LinksPlaced(result, links, i)
        invariant NoneStopped(links, i) && AllFit(checks)
      {
        ghost var was, had, spent := result, checks, unplanned;
        ok := PlaceLink(links[i], planned, links[..i]);
        assert links[..i] + [links[i]] == links[..i + 1] && links[..i + 1][..i] == links[..i];
        if !ok {
          Failing(links, planned, i);
          return;
        }
        PlacedOne(links, planned, i, was);
        FitsOne(had, if Asks(links[i], spent) then [sizes[links[i]] + planned] else []);
      }
      assert links[..|links|] == links;
      NoneStops(links, planned, |links|);
      ok := true;
    }

    lemma NoneStops(links: seq<Name>, planned: nat, i: nat)
      requires Sized(links) && i <= |links|
      ensures AllFit([]) && LinksPlaced(result, links, 0) && Spent([]) == 0 && Asked([], planned) == []
      ensures NoneStopped(links, 0) && (i == |links| && NoneStopped(links, i) ==> !SomeStops(links))
    {
    }

    lemma FitsOne(had: seq<nat>, more: seq<nat>)
      requires AllFit(had) && |more| <= 1 && (more != [] ==> world.fits(|had|, more[0]))
      ensures AllFit(had + more)
    {
    }

    method PlaceCopies(links: seq<Name>, copies: seq<Name>) returns (ok: bool)
      requires Accounts(links) && Sized(copies)
      modifies `result
      ensures ok ==> Accounts(links + copies)
      ensures old(result).bytesWritten <= result.bytesWritten <= old(result).bytesWritten + Sum(sizes, copies)
      ensures ok <==> forall n | n in copies :: !world.copy(n).CopyError?
      ensures ok ==> forall n | n in copies :: IsIn(result, CopyListOf(n), n)
      ensures ok ==> forall l, m | IsIn(old(result), l, m) :: IsIn(result, l, m)
    {
      hide Accounts, IsIn, CopyListOf;
      assert links + copies[..0] == links && copies[..|copies|] == copies;
      for i := 0 to |copies|
        invariant Accounts(links + copies[..i])
        invariant old(result).bytesWritten <= result.bytesWritten <= old(result).bytesWritten + Sum(sizes, copies[..i])
        invariant forall k | 0 <= k < i :: !world.copy(copies[k]).CopyError? && IsIn(result, CopyListOf(copies[k]), copies[k])
        invariant forall l, m | IsIn(old(result), l, m) :: IsIn(result, l, m)
      {
        ghost var was := result;
        ok := PlaceCopy(copies[i], links + copies[..i]);
        assert links + copies[..i] + [copies[i]] == links + copies[..i + 1];
        assert copies[..i] + [copies[i]] == copies[..i + 1];
        SumSnoc(sizes, copies[..i], copies[i]);
        if !ok {
          SumConcat(sizes, copies[..i + 1], copies[i + 1..]);
          assert copies[..i + 1] + copies[i + 1..] == copies;
          return;
        }
        EnteredStay(was, CopyListOf(copies[i]), copies[i], sizes[copies[i]]);
      }
      ok := true;
    }

    /** The space checks of a whole adoption. */
    function AllChecks(links: seq<Name>, copies: seq<Name>): seq<nat>
      requires (forall n | n in links :: n in sizes) && (forall n | n in copies :: n in sizes)
    {
      Asked(links, Sum(sizes, copies)) + if copies == [] then [] else [Sum(sizes, copies)]
    }

    /** The whole adoption. It is abandoned exactly when a link fails otherwise than across
        devices, an unplanned copy does not succeed, a planned one runs out of space, or a
        space check fails. Else every planned name that was not present is in exactly one
        list, the one its source, its link, its copy and the tolerance say; the bytes written
        are those of the copied names, and links that became copies stay within the
        tolerance. Every space check asks for at least all planned copies, the last one, if
        there are copies, for exactly what they then write. With no planned copies there is
        no check to fail after the links. */
    method Adopt(links: seq<Name>, copies: seq<Name>) returns (ok: bool)
      requires result == Outcome([], [], [], [], [], 0) && unplanned == 0 && checks == [] && asked == 0
      requires Sized(links + copies) && NoRepeat(links + copies)
      modifies this
      ensures Sized(links) && Sized(copies)
      ensures unplanned <= tolerance
      ensures forall c | c in checks :: c >= Sum(sizes, copies)
      ensures ok <==>
                && !SomeStops(links) && (forall n | n in copies :: !world.copy(n).CopyError?)
                && AllFit(AllChecks(links, copies))
      ensures ok ==>
                && EachOnce(result, links + copies)
                && (forall k | 0 <= k < |links| :: IsIn(result, ListOf(links[k], Spent(links[..k])), links[k]))
                && (forall n | n in copies :: IsIn(result, CopyListOf(n), n))
                && Sized(result.copied) && result.bytesWritten == Sum(sizes, result.copied)
                && checks == AllChecks(links, copies)
                && unplanned == Spent(links) <= result.bytesWritten <= unplanned + Sum(sizes, copies)
    {
      hide Denied, CannotLinkHere, Accounts, NoRepeat, EachOnce, Asks, Stops, ListOf, CopyListOf, IsIn, SomeStops, AllFit;
      NothingYet();
      SumConcat(sizes, links, copies);
      var planned := Sum(sizes, copies);
      ok := PlaceLinks(links, planned);
      FitsLast(Asked(links, planned), planned);
      if !ok {
        return;
      }
      if copies != [] {
        ok := RequireSpace(planned);
        if !ok {
          return;
        }
      }
      ok := PlaceCopies(links, copies);
      if ok {
        AccountsOnce(links + copies);
      }
    }

    lemma FitsLast(had: seq<nat>, last: nat)
      ensures AllFit(had + [last]) <==> AllFit(had) && world.fits(|had|, last)
      ensures AllFit(had + []) <==> AllFit(had)
    {
      assert had + [] == had;
      assert forall j | 0 <= j < |had| :: (had + [last])[j] == had[j];
      assert (had + [last])[|had|] == last;
    }

    lemma NothingYet()
      requires result == Outcome([], [], [], [], [], 0)
      ensures Accounts([])
    {
    }

    lemma AccountsOnce(handled: seq<Name>)
      requires Accounts(handled) && NoRepeat(handled)
      ensures EachOnce(result, handled) && Sized(result.copied) && result.bytesWritten == Sum(sizes, result.copied)
    {
      forall n ensures multiset(handled)[n] == if n in handled then 1 else 0 {
        OnceEach(handled, n);
      }
    }
  }

  /** Every name is in exactly one of the lists, once, and no other name is in any. */
  ghost predicate EachOnce(r: Outcome, names: seq<Name>) {
    forall n :: All(r)[n] == if n in names then 1 else 0
  }

  lemma {:induction false} OnceEach(names: seq<Name>, n: Name)
    requires NoRepeat(names)
    ensures multiset(names)[n] == if n in names then 1 else 0
  {
    if names != [] {
      var init, last := names[..|names| - 1], names[|names| - 1];
      OnceEach(init, n);
      assert names == init + [last];
    }
  }
}
