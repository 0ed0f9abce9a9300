/** The in-memory community directory: a list that starts as a copy of five
    seeded communities, plus the fixed list of team names a community can
    be linked to. */
module CommunitiesData {
  import opened Wrappers
  import Seqs
  import Table

  /** One community. `kind` is the source's `type` field ("Club", "Shop",
      "Women", "Youth", "Family" or "Corporate"); `status` is "Active",
      "Draft" or "Disabled"; the optional admin fields are `None` when absent. */
  datatype Community = Community(
    id: string, name: string, city: string, kind: string, description: string,
    isPublic: bool, isFeatured: bool, membersCount: int, eventsCount: int, status: string,
    logo: string, coverImage: string, adminId: Option<string>, adminName: Option<string>,
    teams: seq<string>, createdAt: string)

  /** `Partial<Community>`: a field that is `None` is absent from the update. */
  datatype CommunityPatch = CommunityPatch(
    id: Option<string>, name: Option<string>, city: Option<string>, kind: Option<string>,
    description: Option<string>, isPublic: Option<bool>, isFeatured: Option<bool>,
    membersCount: Option<int>, eventsCount: Option<int>, status: Option<string>,
    logo: Option<string>, coverImage: Option<string>, adminId: Option<string>,
    adminName: Option<string>, teams: Option<seq<string>>, createdAt: Option<string>)

  /** The update that sets no field. */
  const EmptyPatch := CommunityPatch(None, None, None, None, None, None, None, None, None, None,
    None, None, None, None, None, None)

  /** `{ ...c, ...p }`: every field present in `p` overrides the one in `c`. */
  function Merge(c: Community, p: CommunityPatch): Community {
    Community(
      p.id.GetOr(c.id), p.name.GetOr(c.name), p.city.GetOr(c.city), p.kind.GetOr(c.kind),
      p.description.GetOr(c.description), p.isPublic.GetOr(c.isPublic),
      p.isFeatured.GetOr(c.isFeatured), p.membersCount.GetOr(c.membersCount),
      p.eventsCount.GetOr(c.eventsCount), p.status.GetOr(c.status), p.logo.GetOr(c.logo),
      p.coverImage.GetOr(c.coverImage), Or(p.adminId, c.adminId),
      Or(p.adminName, c.adminName), p.teams.GetOr(c.teams), p.createdAt.GetOr(c.createdAt))
  }

  /** The update that applies `p` and then `q`, as one spread. */
  function Then(p: CommunityPatch, q: CommunityPatch): CommunityPatch {
    CommunityPatch(
      Or(q.id, p.id), Or(q.name, p.name), Or(q.city, p.city), Or(q.kind, p.kind),
      Or(q.description, p.description), Or(q.isPublic, p.isPublic),
      Or(q.isFeatured, p.isFeatured), Or(q.membersCount, p.membersCount),
      Or(q.eventsCount, p.eventsCount), Or(q.status, p.status), Or(q.logo, p.logo),
      Or(q.coverImage, p.coverImage), Or(q.adminId, p.adminId),
      Or(q.adminName, p.adminName), Or(q.teams, p.teams), Or(q.createdAt, p.createdAt))
  }


  function Id(c: Community): string { c.id }

  /** Spreading an empty update changes nothing; spreading an update twice is
      the same as once; two successive spreads are one combined spread. */
  lemma MergeLaws(c: Community, p: CommunityPatch, q: CommunityPatch)
    ensures Merge(c, EmptyPatch) == c
    ensures Merge(Merge(c, p), p) == Merge(c, p)
    ensures Merge(Merge(c, p), q) == Merge(c, Then(p, q))
  {
  }

  /** The team names offered when a community is created. */
  const AvailableTeams: seq<string> := ["ADCycling Team", "Al Dhafra CT", "Rabdan CT", "Al Ain CT", "Al Raha CT", "Fullgas CT", "Yasi CT", "Saraab CT", "Al Wathba CT", "971 Athletes", "Al Fursan CT", "Cycle Zone CT", "Yas Cycle CT", "Salam Bike Shop CT", "Modon CT", "Go Cycling Dubai", "Al Hudayriyat CT", "Saikal Cafe CT", "Women Moving Forward", "Not in any team"]

  /** The five seeded communities. */
  const SeedCommunities: seq<Community> :=
    [SeedCommunity1, SeedCommunity2, SeedCommunity3, SeedCommunity4, SeedCommunity5]

  const SeedCommunity1: Community := Community(id := "1", name := "Abu Dhabi Chapter", city := "Abu Dhabi", kind := "Club",
    description := "The main Abu Dhabi cycling community bringing together riders of all levels",
    isPublic := true, isFeatured := true,
    membersCount := 3420, eventsCount := 18, status := "Active",
    logo := "https://images.unsplash.com/photo-1584981401957-03158e43750d?w=200",
    coverImage := "https://images.unsplash.com/photo-1707297391684-e07bd2368432?w=800",
    adminId := None, adminName := Some("Ahmed Al Mansoori"),
    teams := ["ADCycling Team", "Al Wathba CT", "Al Fursan CT"], createdAt := "2025-01-15")

  const SeedCommunity2: Community := Community(id := "2", name := "Dubai Chapter", city := "Dubai", kind := "Club",
    description := "Dubai's premier cycling community for road and track enthusiasts",
    isPublic := true, isFeatured := true,
    membersCount := 2890, eventsCount := 15, status := "Active",
    logo := "https://images.unsplash.com/photo-1521078803125-7efd09b65b8f?w=200",
    coverImage := "https://images.unsplash.com/photo-1716738634956-1494117b349b?w=800",
    adminId := None, adminName := Some("Sara Hassan"),
    teams := ["Go Cycling Dubai", "Fullgas CT"], createdAt := "2025-02-01")

  const SeedCommunity3: Community := Community(id := "3", name := "Al Ain Chapter", city := "Al Ain", kind := "Club",
    description := "Mountain and desert cycling specialists",
    isPublic := true, isFeatured := false,
    membersCount := 1240, eventsCount := 9, status := "Active",
    logo := "https://images.unsplash.com/photo-1584981401957-03158e43750d?w=200",
    coverImage := "https://images.unsplash.com/photo-1718527192815-bb68dd23ce74?w=800",
    adminId := None, adminName := Some("Mohammed Ali"),
    teams := ["Al Ain CT"], createdAt := "2025-02-15")

  const SeedCommunity4: Community := Community(id := "4", name := "Women Moving Forward", city := "Abu Dhabi", kind := "Women",
    description := "Empowering women cyclists across the UAE",
    isPublic := true, isFeatured := true,
    membersCount := 890, eventsCount := 12, status := "Active",
    logo := "https://images.unsplash.com/photo-1584981401957-03158e43750d?w=200",
    coverImage := "https://images.unsplash.com/photo-1662855414519-2b1b44ef3a08?w=800",
    adminId := None, adminName := Some("Fatima Al Zaabi"),
    teams := ["Women Moving Forward"], createdAt := "2025-03-01")

  const SeedCommunity5: Community := Community(id := "5", name := "Cycle Zone Shop", city := "Abu Dhabi", kind := "Shop",
    description := "Community rides and events hosted by Cycle Zone bike shop",
    isPublic := true, isFeatured := false,
    membersCount := 450, eventsCount := 6, status := "Active",
    logo := "https://images.unsplash.com/photo-1584981401957-03158e43750d?w=200",
    coverImage := "https://images.unsplash.com/photo-1707297391684-e07bd2368432?w=800",
    adminId := None, adminName := Some("Omar Khalid"),
    teams := ["Cycle Zone CT"], createdAt := "2025-03-20")

  /** The seeded communities have distinct ids, are all active, and link only
      teams from the offered list. */
  lemma SeedFacts()
    ensures |SeedCommunities| == 5
    ensures Table.UniqueKeys(SeedCommunities, Id)
    ensures forall k :: 0 <= k < |SeedCommunities| ==> SeedCommunities[k].status == "Active"
    ensures forall k, t :: 0 <= k < |SeedCommunities| && t in SeedCommunities[k].teams ==> t in AvailableTeams
  {
  }

  /** The offered team names are twenty distinct names. */
  lemma AvailableTeamsDistinct()
    ensures |AvailableTeams| == 20 && Seqs.NoDuplicates(AvailableTeams)
  {
  }

  /** The module-level `communities` list. */
  class CommunityStore {
    var communities: seq<Community>

    /** `let communities = [...communitiesData]`. */
    constructor ()
      ensures communities == SeedCommunities
    {
      communities := SeedCommunities;
    }

    /** `addCommunity`: appends without checking the id. */
    method Add(community: Community)
      modifies this
      ensures communities == old(communities) + [community]
    {
      communities := communities + [community];
    }

    /** `updateCommunity`: the first community with the id gets the update spread over
        it; an unknown id changes nothing. */
    method Update(id: string, updates: CommunityPatch)
      modifies this
      ensures match Table.FirstIndex(old(communities), Id, id)
        case None => communities == old(communities)
        case Some(i) => communities == old(communities)[i := Merge(old(communities)[i], updates)]
    {
      var index := Table.FirstIndex(communities, Id, id);
      if index.Some? {
        communities := communities[index.value := Merge(communities[index.value], updates)];
      }
    }

    /** `deleteCommunity`: drops every community with the id. */
    method Delete(id: string)
      modifies this
      ensures communities == Table.RemoveAll(old(communities), Id, id)
    {
      communities := Table.RemoveAll(communities, Id, id);
    }

    /** `getCommunity`: the first community with the id. */
    method Get(id: string) returns (r: Option<Community>)
      ensures r == Table.Find(communities, Id, id)
      ensures r.Some? ==> r.value in communities && r.value.id == id
      ensures r.None? <==> forall k :: 0 <= k < |communities| ==> communities[k].id != id
    {
      var index := Table.FirstIndex(communities, Id, id);
      r := if index.Some? then Some(communities[index.value]) else None;
    }

    /** `getAllCommunities`. */
    method GetAll() returns (r: seq<Community>)
      ensures r == communities
    {
      r := communities;
    }
  }
}
