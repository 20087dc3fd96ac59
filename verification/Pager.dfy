/**
 ListVolumes: one generator walks the list of volumes and hands out pages; the token of a page is the
 index of its last entry, and the empty token marks the last page.
 */
module Pager {
  import opened Base

  /** `request.starting_token`, parsed. */
  datatype Token = Empty | NotANumber | Number(value: int)

  /** `Raised` is an exception nobody catches. */
  datatype Answer = Page(entries: seq<Id>, next: Option<nat>) | Aborted | Raised

  const LIMIT := 30

  /** Where the generator is suspended. */
  datatype Status = Started | AwaitsToken | Answered | Ended

  /** How far a page that starts at `from` reaches. */
  function PageEnd(total: nat, maxEntries: int, from: nat): (end: nat)
    ensures from <= total ==> end <= total && (from < total ==> from < end)
  {
    if 0 < maxEntries && from + maxEntries < total then from + maxEntries else total
  }

  /** `yield_list_of_pvcs` over the volumes as `wrap_pvc` delivers them: each with a flag for the last. */
  class Generator {
    const volumes: seq<Id>
    const maxEntries: int
    var taken: nat           // volumes consumed so far
    var page: seq<Id>
    var status: Status

    constructor (volumes: seq<Id>, maxEntries: int)
      ensures this.volumes == volumes && this.maxEntries == maxEntries
      ensures Valid() && status == Started && taken == 0
    {
      this.volumes, this.maxEntries := volumes, maxEntries;
      taken, page, status := 0, [], Started;
    }

    ghost predicate Valid()
      reads this
    {
      && taken <= |volumes|
      && (status == Started ==> taken == 0)
      && (status == AwaitsToken ==> page != [] && |page| <= taken && page == volumes[taken - |page|..taken])
    }

    /** `next(GEN)`: collects until a page is complete, then waits for a token. */
    method Next() returns (alive: bool)
      requires Valid() && status != AwaitsToken
      modifies `taken, `page, `status
      ensures Valid()
      ensures alive == (old(status) != Ended && old(taken) < |volumes|)
      ensures alive ==>
                && status == AwaitsToken && taken == PageEnd(|volumes|, maxEntries, old(taken))
                && page == volumes[old(taken)..taken]
      ensures !alive ==> status == Ended && taken == old(taken)
    {
      if status == Ended {
        return false;
      }
      page := [];
      ghost var from := taken;
      while taken < |volumes|
        invariant from <= taken <= |volumes| && page == volumes[from..taken]
        invariant 0 < maxEntries ==> |page| < maxEntries
        invariant from < |volumes| ==> taken < |volumes|
        invariant status == old(status) && (status == Started ==> from == 0)
      {
        page := page + [volumes[taken]];
        taken := taken + 1;
        var last := taken == |volumes|;
        if (maxEntries != 0 && |page| == maxEntries) || last {
          status := AwaitsToken;
          return true;
        }
      }
      status := Ended;
      return false;
    }

    /** `GEN.send(token)`: a page that is not the last is handed out only for zero or for the token of
        the page before it. */
    method Send(token: int) returns (r: Option<(seq<Id>, Option<nat>)>)
      requires Valid() && status == AwaitsToken
      modifies `status
      ensures Valid()
      ensures r.Some? <==> token == 0 || taken == |volumes| || token == taken - 1 - maxEntries
      ensures r.Some? ==> status == Answered && r.value == (page, if taken == |volumes| then None else Some(taken - 1))
      ensures r.None? ==> status == Ended
    {
      var last := taken == |volumes|;
      if token != 0 && !last && token != taken - 1 - maxEntries {
        status := Ended;
        return None;
      }
      status := Answered;
      return Some((page, if last then None else Some(taken - 1)));
    }
  }

  /** The controller keeps one generator between calls. */
  class Controller {
    const volumes: seq<Id>
    var gen: Option<Generator>

    constructor (volumes: seq<Id>)
      ensures this.volumes == volumes && gen.None? && Valid()
    {
      this.volumes, gen := volumes, None;
    }

    ghost predicate Valid()
      reads this, if gen.Some? then {gen.value} else {}
    {
      gen.Some? ==> gen.value.Valid() && gen.value.status != AwaitsToken && gen.value.volumes == volumes
    }

    /** The entries per page of the listing in progress, and the volumes it has handed out. */
    ghost predicate At(maxEntries: int, taken: nat)
      reads this, if gen.Some? then {gen.value} else {}
    {
      && Valid() && gen.Some? && gen.value.maxEntries == maxEntries && gen.value.taken == taken
      && gen.value.status == Answered
    }

    /** A call with an empty token starts over; any other goes on with the listing in progress, and raises
        when there is none. */
    method ListVolumes(token: Token, maxEntries: int) returns (answer: Answer)
      requires Valid()
      modifies this, if gen.Some? then {gen.value} else {}
      ensures Valid() && if token == Empty then gen.Some? && fresh(gen.value) else gen == old(gen)
      ensures token == NotANumber ==> answer == Aborted
      ensures answer == Raised <==> token.Number? && old(gen).None?
      ensures token == Empty ==>
                var size := if maxEntries == 0 then 30 else maxEntries;
                answer == AnswerAt(volumes, size, 0, 0) && (volumes != [] ==> At(size, PageEnd(|volumes|, size, 0)))
      ensures forall size: int, from: nat :: token.Number? && old(At(size, from)) ==>
                && answer == AnswerAt(volumes, size, from, token.value)
                && (answer.Page? ==> At(size, PageEnd(|volumes|, size, from)))
    {
      if token == NotANumber {
        return Aborted;
      }
      var value := if token == Empty then 0 else token.value;
      if token == Empty {
        var started := new Generator(volumes, PageSize(maxEntries));
        gen := Some(started);
      }
      if gen.None? {
        return Raised;
      }
      answer := Serve(gen.value, value);
    }

    /** `next(GEN)` and `GEN.send(token)` */
    method Serve(g: Generator, token: int) returns (answer: Answer)
      requires g.Valid() && g.status != AwaitsToken
      modifies g
      ensures g.Valid() && g.status != AwaitsToken
      ensures answer != Raised
      ensures old(g.status) != Ended ==> answer == AnswerAt(g.volumes, g.maxEntries, old(g.taken), token)
      ensures answer.Page? ==> g.status == Answered && g.taken == PageEnd(|g.volumes|, g.maxEntries, old(g.taken))
    {
      var alive := g.Next();
      if !alive {
        return Aborted;
      }
      var r := g.Send(token);
      if r.None? {
        return Aborted;
      }
      return Page(r.value.0, r.value.1);
    }
  }

  function PageSize(maxEntries: int): int {
    if maxEntries == 0 then LIMIT else maxEntries
  }

  /** What a listing that has handed out `from` volumes answers to a token: the next page and its token,
      unless nothing is left, or more than one page is and the token is not the last one handed out. */
  function AnswerAt(volumes: seq<Id>, size: int, from: nat, token: int): Answer
    requires from <= |volumes|
  {
    var end := PageEnd(|volumes|, size, from);
    if from < |volumes| && (token == 0 || end == |volumes| || token == end - 1 - size) then
      Page(volumes[from..end], if end == |volumes| then None else Some(end - 1))
    else Aborted
  }

  // ---- A client that follows the tokens ----

  /** The list cut into pages. */
  function Pages(volumes: seq<Id>, size: nat): seq<seq<Id>>
    requires 0 < size
  {
    if volumes == [] then []
    else if |volumes| <= size then [volumes]
    else [volumes[..size]] + Pages(volumes[size..], size)
  }

  function Flatten(pages: seq<seq<Id>>): seq<Id> {
    if pages == [] then [] else pages[0] + Flatten(pages[1..])
  }

  /** The pages are the whole list in order; each holds exactly `size` entries, the last at most that,
      and none is empty. */
  lemma {:induction false} PagesAreTheList(volumes: seq<Id>, size: nat)
    requires 0 < size
    ensures Flatten(Pages(volumes, size)) == volumes
    ensures forall i :: 0 <= i < |Pages(volumes, size)| ==>
              0 < |Pages(volumes, size)[i]| <= size
                  && (i + 1 < |Pages(volumes, size)| ==> |Pages(volumes, size)[i]| == size)
    decreases |volumes|
  {
    if volumes != [] && size < |volumes| {
      PagesAreTheList(volumes[size..], size);
      assert volumes == volumes[..size] + volumes[size..];
      assert Pages(volumes, size)[1..] == Pages(volumes[size..], size);
    } else if volumes != [] {
      assert Flatten([volumes]) == volumes + Flatten([volumes][1..]);
      assert [volumes][1..] == [];
    }
  }

  lemma PagesFrom(volumes: seq<Id>, size: nat, from: nat)
    requires 0 < size && from < |volumes|
    ensures var end := PageEnd(|volumes|, size, from);
            Pages(volumes[from..], size) == [volumes[from..end]] + Pages(volumes[end..], size)
  {
    var end := PageEnd(|volumes|, size, from);
    if from + size < |volumes| {
      assert volumes[from..][..size] == volumes[from..end] && volumes[from..][size..] == volumes[end..];
    } else {
      assert volumes[from..] == volumes[from..end] && volumes[end..] == [];
    }
  }

  /** Before the last page a token other than zero is served if and only if it is the one handed out with
      the page before, which named the entry just before this page. The last page is served to any token, and
      every page to zero. */
  lemma TokenIsCheckedIff(volumes: seq<Id>, size: int, from: nat, token: int)
    requires 0 < size && from < |volumes|
    ensures from + size < |volumes| ==>
              if token == 0 || token == from - 1 then
                AnswerAt(volumes, size, from, token) == Page(volumes[from..from + size], Some(from + size - 1))
              else AnswerAt(volumes, size, from, token) == Aborted
    ensures |volumes| <= from + size ==> AnswerAt(volumes, size, from, token) == Page(volumes[from..], None)
  {
  }

  /** Over an unchanging list, following the returned tokens is never refused and yields exactly the
      pages of the list. */
  method FollowTokens(c: Controller, maxEntries: nat) returns (pages: seq<seq<Id>>)
    requires c.Valid() && c.volumes != []
    modifies c, if c.gen.Some? then {c.gen.value} else {}
    ensures pages == Pages(c.volumes, if maxEntries == 0 then 30 else maxEntries)
  {
    var size := PageSize(maxEntries);
    var answer := c.ListVolumes(Empty, maxEntries);
    pages := [answer.entries];
    ghost var taken := PageEnd(|c.volumes|, size, 0);
    FirstPage(c.volumes, size);
    while answer.next.Some?
      invariant c.At(size, taken) && fresh(c.gen.value)
      invariant Continues(answer, |c.volumes|, taken)
      invariant pages + Pages(c.volumes[taken..], size) == Pages(c.volumes, size)
      decreases |c.volumes| - taken
    {
      ghost var from := taken;
      taken := PageEnd(|c.volumes|, size, from);
      PagesFrom(c.volumes, size, from);
      answer := c.ListVolumes(Number(answer.next.value), maxEntries);
      AppendPage(pages, answer.entries, Pages(c.volumes[taken..], size));
      pages := pages + [answer.entries];
    }
    assert c.volumes[taken..] == [];
  }

  /** The token names the entry before the next page, and is empty at the end. */
  predicate Continues(answer: Answer, total: nat, taken: nat) {
    0 < taken <= total && answer.Page? && answer.next == if taken == total then None else Some(taken - 1)
  }

  lemma FirstPage(volumes: seq<Id>, size: nat)
    requires 0 < size && volumes != []
    ensures var end := PageEnd(|volumes|, size, 0);
            [volumes[..end]] + Pages(volumes[end..], size) == Pages(volumes, size)
  {
    PagesFrom(volumes, size, 0);
    assert volumes[0..] == volumes;
  }

  lemma AppendPage(pages: seq<seq<Id>>, page: seq<Id>, rest: seq<seq<Id>>)
    ensures pages + ([page] + rest) == pages + [page] + rest
  {
  }
}
