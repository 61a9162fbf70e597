/** The member roster page (`Members`): four tier lists filled by one
    sequential fetch from the document store, shown as a single list ordered
    by tier, one card per member with optional links, and the decisions that
    register its scroll reveals. */
module MemberRoster {
  import opened Js

  /** A member document. Optional and possibly empty string fields are
      `Option<string>`; the tech stack may be missing. */
  datatype Member = Member(
    id: string,
    name: string,
    post: string,
    profilepic: Option<string>,
    linkedin: Option<string>,
    instagram: Option<string>,
    insta: Option<string>,
    github: Option<string>,
    techstack: Option<seq<string>>)

  /** What one `listDocuments` call settles to: the documents of the
      collection in the order the store returns them, or a rejection. */
  datatype FetchOutcome = Documents(documents: seq<Member>) | Failure

  /** The collection of each tier, in the order the fetch queries them. */
  const Tier4Collection: string := "689cefca0001449d5204"
  const Tier3Collection: string := "689cef0d003da89eebea"
  const Tier2Collection: string := "689cef3200167375be28"
  const Tier1Collection: string := "689cef460005804b0484"
  const QueryOrder: seq<string> := [Tier4Collection, Tier3Collection, Tier2Collection, Tier1Collection]

  /** The four lists as one value. */
  datatype Tiers = Tiers(tier4: seq<Member>, tier3: seq<Member>, tier2: seq<Member>, tier1: seq<Member>)

  /** `allMembers`: tier 4 first, then 3, 2 and 1, each in its own order. */
  function AllOf(t: Tiers): (all: seq<Member>)
    ensures |all| == |t.tier4| + |t.tier3| + |t.tier2| + |t.tier1|
    ensures all[..|t.tier4|] == t.tier4
    ensures all[|t.tier4|..|t.tier4| + |t.tier3|] == t.tier3
    ensures all[|t.tier4| + |t.tier3|..|t.tier4| + |t.tier3| + |t.tier2|] == t.tier2
    ensures all[|t.tier4| + |t.tier3| + |t.tier2|..] == t.tier1
  {
    t.tier4 + t.tier3 + t.tier2 + t.tier1
  }

  /** A member is on the page exactly when it is in one of the tier lists. */
  lemma AllOfHoldsEveryTier(t: Tiers, m: Member)
    ensures m in AllOf(t) <==> m in t.tier4 || m in t.tier3 || m in t.tier2 || m in t.tier1
  {
  }

  /** The lists the fetch would store: each tier's documents when all four
      queries succeed, nothing when any of them fails. */
  function FetchAll(listDocuments: string -> FetchOutcome): (r: Option<Tiers>)
    ensures r.Some? <==> (listDocuments(Tier4Collection).Documents? && listDocuments(Tier3Collection).Documents?
                          && listDocuments(Tier2Collection).Documents? && listDocuments(Tier1Collection).Documents?)
    ensures r.Some? ==> r.value == Tiers(
      listDocuments(Tier4Collection).documents, listDocuments(Tier3Collection).documents,
      listDocuments(Tier2Collection).documents, listDocuments(Tier1Collection).documents)
  {
    var r4, r3, r2, r1 := listDocuments(Tier4Collection), listDocuments(Tier3Collection),
      listDocuments(Tier2Collection), listDocuments(Tier1Collection);
    if r4.Documents? && r3.Documents? && r2.Documents? && r1.Documents? then
      Some(Tiers(r4.documents, r3.documents, r2.documents, r1.documents))
    else
      None
  }

  /** The collections actually queried, in order: each query is awaited
      before the next starts, and a rejection ends the sequence. */
  function Queried(listDocuments: string -> FetchOutcome): (q: seq<string>)
    ensures 1 <= |q| <= |QueryOrder| && q == QueryOrder[..|q|]
    ensures forall k :: 0 <= k < |q| - 1 ==> listDocuments(q[k]).Documents?
    ensures |q| < |QueryOrder| ==> listDocuments(q[|q| - 1]).Failure?
  {
    if listDocuments(Tier4Collection).Failure? then [Tier4Collection]
    else if listDocuments(Tier3Collection).Failure? then [Tier4Collection, Tier3Collection]
    else if listDocuments(Tier2Collection).Failure? then [Tier4Collection, Tier3Collection, Tier2Collection]
    else QueryOrder
  }

  /** The lists are stored exactly when every collection was queried and the
      last query succeeded too. */
  lemma StoredOnlyAfterAllQueries(listDocuments: string -> FetchOutcome)
    ensures FetchAll(listDocuments).Some?
        <==> Queried(listDocuments) == QueryOrder && listDocuments(Tier1Collection).Documents?
  {
  }

  /** The stored lists depend only on what each collection returns, never
      on anything else about the queries. */
  lemma FetchDependsOnlyOnCollections(f: string -> FetchOutcome, g: string -> FetchOutcome)
    requires forall k :: 0 <= k < |QueryOrder| ==> f(QueryOrder[k]) == g(QueryOrder[k])
    ensures FetchAll(f) == FetchAll(g)
  {
    assert f(QueryOrder[0]) == g(QueryOrder[0]) && f(QueryOrder[1]) == g(QueryOrder[1]);
    assert f(QueryOrder[2]) == g(QueryOrder[2]) && f(QueryOrder[3]) == g(QueryOrder[3]);
  }

  const PlaceholderImage: string := "/placeholder.webp"

  /** What one member card shows. A link is `Some(href)` when its button is
      rendered. */
  datatype Card = Card(
    key: string,
    imageSrc: string,
    alt: string,
    name: string,
    post: string,
    techstack: seq<string>,
    github: Option<string>,
    linkedin: Option<string>,
    instagram: Option<string>)

  /** The link button for an optional field: rendered when the field is truthy. */
  function LinkButton(field: Option<string>): (link: Option<string>)
    ensures link.Some? <==> Truthy(field)
    ensures link.Some? ==> link == field
  {
    if Truthy(field) then field else None
  }

  /** The card of one member: the profile picture or the placeholder, the
      GitHub and LinkedIn buttons when their field is truthy, and one
      Instagram button for `insta`, falling back to `instagram`. */
  function CardOf(m: Member): (c: Card)
    ensures c.key == m.id && c.name == m.name && c.post == m.post && c.alt == m.name
    ensures c.imageSrc == if Truthy(m.profilepic) then m.profilepic.value else PlaceholderImage
    ensures c.imageSrc != ""
    ensures c.techstack == if m.techstack.Some? then m.techstack.value else []
    ensures c.github.Some? <==> Truthy(m.github)
    ensures Truthy(m.github) ==> c.github == m.github
    ensures c.linkedin.Some? <==> Truthy(m.linkedin)
    ensures Truthy(m.linkedin) ==> c.linkedin == m.linkedin
    ensures c.instagram.Some? <==> Truthy(m.insta) || Truthy(m.instagram)
    ensures Truthy(m.insta) ==> c.instagram == m.insta
    ensures !Truthy(m.insta) && Truthy(m.instagram) ==> c.instagram == m.instagram
  {
    var src := Or(m.profilepic, Some(PlaceholderImage));
    Card(m.id, src.value, m.name, m.name, m.post,
      if m.techstack.Some? then m.techstack.value else [],
      LinkButton(m.github), LinkButton(m.linkedin), LinkButton(Or(m.insta, m.instagram)))
  }

  /** The card grid: the loading message while the list is empty, else one
      card per member in list order. */
  datatype Grid = Loading | Cards(cards: seq<Card>)

  function RenderGrid(all: seq<Member>): (g: Grid)
    ensures g.Loading? <==> all == []
    ensures g.Cards? ==> |g.cards| == |all|
    ensures g.Cards? ==> forall i :: 0 <= i < |all| ==> g.cards[i] == CardOf(all[i])
  {
    if all == [] then Loading else Cards(seq(|all|, i requires 0 <= i < |all| => CardOf(all[i])))
  }

  /** The scroll reveals the page registers, with their start position (the
      target's top at this percentage of the viewport height). */
  datatype Reveal = TitleReveal(startPercent: nat) | CardsReveal(startPercent: nat, cardCount: nat)

  /** Nothing is registered unless both the title and the grid are mounted;
      the title reveal then always, the staggered card reveal only when
      there is at least one member card. */
  function MemberReveals(titleMounted: bool, gridMounted: bool, memberCount: nat): (rs: seq<Reveal>)
    ensures !(titleMounted && gridMounted) ==> rs == []
    ensures titleMounted && gridMounted ==> |rs| >= 1 && rs[0] == TitleReveal(80)
    ensures CardsReveal(75, memberCount) in rs <==> titleMounted && gridMounted && memberCount > 0
    ensures forall r :: r in rs ==> r == TitleReveal(80) || r == CardsReveal(75, memberCount)
    ensures |rs| == if titleMounted && gridMounted then 1 + (if memberCount > 0 then 1 else 0) else 0
  {
    if !(titleMounted && gridMounted) then []
    else if memberCount > 0 then [TitleReveal(80), CardsReveal(75, memberCount)]
    else [TitleReveal(80)]
  }

  /** The page's state: the four tier lists. */
  class Roster {
    var members4: seq<Member>
    var members3: seq<Member>
    var members2: seq<Member>
    var members1: seq<Member>

    function Lists(): Tiers
      reads this
    {
      Tiers(members4, members3, members2, members1)
    }

    /** `allMembers`. */
    function AllMembers(): seq<Member>
      reads this
    {
      AllOf(Lists())
    }

    constructor ()
      ensures members4 == [] && members3 == [] && members2 == [] && members1 == []
      ensures AllMembers() == []
    {
      members4, members3, members2, members1 := [], [], [], [];
    }

    /** `fetchMembers`: query the four collections one after another and
        store all four lists only after every query has succeeded; on a
        rejection the remaining queries are skipped and nothing is stored. */
    method FetchMembers(listDocuments: string -> FetchOutcome) returns (queried: seq<string>)
      modifies this
      ensures queried == Queried(listDocuments)
      ensures FetchAll(listDocuments).Some? ==> Lists() == FetchAll(listDocuments).value
      ensures FetchAll(listDocuments).None? ==> Lists() == old(Lists())
    {
      var res4 := listDocuments(Tier4Collection);
      queried := [Tier4Collection];
      if res4.Failure? { return; }
      var res3 := listDocuments(Tier3Collection);
      queried := queried + [Tier3Collection];
      if res3.Failure? { return; }
      var res2 := listDocuments(Tier2Collection);
      queried := queried + [Tier2Collection];
      if res2.Failure? { return; }
      var res1 := listDocuments(Tier1Collection);
      queried := queried + [Tier1Collection];
      if res1.Failure? { return; }
      members4 := res4.documents;
      members3 := res3.documents;
      members2 := res2.documents;
      members1 := res1.documents;
    }

    /** What the grid shows now. */
    method Grid() returns (g: Grid)
      ensures g == RenderGrid(AllMembers())
      ensures g.Loading? <==> members4 == members3 == members2 == members1 == []
    {
      g := RenderGrid(members4 + members3 + members2 + members1);
    }
  }

  /** Before any fetch has stored anything the page shows the loading
      message and registers no card reveal. */
  lemma InitiallyLoading(titleMounted: bool, gridMounted: bool)
    ensures RenderGrid(AllOf(Tiers([], [], [], []))) == Loading
    ensures MemberReveals(titleMounted, gridMounted, |AllOf(Tiers([], [], [], []))|) == if titleMounted && gridMounted then [TitleReveal(80)] else []
  {
  }

  /** After a successful fetch the grid holds one card per fetched document,
      tier 4's first, and the card reveal is registered exactly when some
      collection returned a document. */
  lemma FetchedGrid(listDocuments: string -> FetchOutcome)
    requires FetchAll(listDocuments).Some?
    ensures var t := FetchAll(listDocuments).value;
      var g := RenderGrid(AllOf(t));
      (g.Cards? ==> forall i :: 0 <= i < |t.tier4| ==> g.cards[i] == CardOf(listDocuments(Tier4Collection).documents[i]))
      && (CardsReveal(75, |AllOf(t)|) in MemberReveals(true, true, |AllOf(t)|)
          <==> t.tier4 != [] || t.tier3 != [] || t.tier2 != [] || t.tier1 != [])
  {
  }
}
