/**
 * `MITRECache`: the service object holding the in-memory groups, the
 * loaded flag and the search index, with the operations that read or
 * replace them.
 *
 * What the service reads from disk, from its SQLite tables and from the
 * clock is passed in: the groups its database cache still holds, whether
 * the source files are newer than that cache, and the group records read
 * from the source files.
 */
module CacheService {
  import opened Wrappers
  import opened Collections
  import opened Entities
  import opened CacheFilter
  import opened CacheLookup
  import opened CacheSearch

  /** The record of one file as loaded: its technique table filtered. */
  function Loaded(g: Group): Group {
    g.(techniques := FilterUsed(g.techniques))
  }

  /** `_load_apt_group_from_file`: the record as read, its technique table filtered. */
  method LoadAptGroup(data: Group) returns (aptGroup: Group)
    ensures aptGroup == Loaded(data)
  {
    var filtered := FilterUsedTechniques(data.techniques);
    aptGroup := data.(techniques := filtered);
  }

  /** The groups `_load_from_files` returns for the records read from the files, keyed by `attack_id`. */
  function FromFiles(files: seq<Group>): (m: Groups)
    ensures m.Valid()
    ensures forall k :: k in m.vals ==> m.vals[k].attackId == k
  {
    if files == [] then EmptyMap()
    else
      var g := files[|files| - 1];
      FromFiles(files[..|files| - 1]).Put(g.attackId, Loaded(g))
  }

  /** Every file contributes its group under its id, and nothing else is there. */
  lemma {:induction false} FromFilesKeys(files: seq<Group>, k: string)
    ensures k in FromFiles(files).vals <==> exists i :: 0 <= i < |files| && files[i].attackId == k
  {
    if files != [] {
      var init := files[..|files| - 1];
      FromFilesKeys(init, k);
      ExistsSnoc(files, init, (g: Group) => g.attackId == k);
    }
  }

  /** The group kept under an id is the last file with that id, as loaded. */
  lemma {:induction false} FromFilesLastWins(files: seq<Group>, i: nat)
    requires i < |files|
    requires forall j :: i < j < |files| ==> files[j].attackId != files[i].attackId
    ensures files[i].attackId in FromFiles(files).vals
    ensures FromFiles(files).vals[files[i].attackId] == Loaded(files[i])
  {
    if i < |files| - 1 {
      var init := files[..|files| - 1];
      FromFilesLastWins(init, i);
    }
  }

  method LoadFromFiles(files: seq<Group>) returns (aptGroups: Groups)
    ensures aptGroups == FromFiles(files)
  {
    aptGroups := EmptyMap();
    var i := 0;
    while i < |files|
      invariant 0 <= i <= |files|
      invariant aptGroups == FromFiles(files[..i])
    {
      PrefixSnoc(files, i);
      var aptGroup := LoadAptGroup(files[i]);
      aptGroups := aptGroups.Put(aptGroup.attackId, aptGroup);
      i := i + 1;
    }
    assert files[..i] == files;
  }

  /**
   * Which groups `load_mitre_data` keeps: the file data when the database
   * cache is empty or out of date and the files gave something, else the
   * database cache.
   */
  function ChooseData(cachedData: Groups, shouldUpdate: bool, fileData: Groups): (m: Groups)
    ensures m == fileData || m == cachedData
    ensures cachedData.keys != [] && !shouldUpdate ==> m == cachedData
    ensures fileData.keys == [] ==> m == cachedData
  {
    if cachedData.keys == [] || shouldUpdate then
      if fileData.keys != [] then fileData else cachedData
    else cachedData
  }

  class MitreCache {
    var memoryCache: Groups
    var cacheLoaded: bool
    var searchIndex: set<IndexRow>

    /** The map is well formed and the index was built from it. */
    ghost predicate Valid()
      reads this
    {
      memoryCache.Valid() && searchIndex == SearchIndex(memoryCache.Items())
    }

    constructor()
      ensures Valid() && memoryCache == EmptyMap() && !cacheLoaded && searchIndex == {}
    {
      memoryCache := EmptyMap();
      cacheLoaded := false;
      searchIndex := {};
    }

    /** `_build_search_index`: the table cleared, then filled from the memory cache. */
    method BuildSearchIndex()
      requires memoryCache.Valid()
      modifies this
      ensures Valid()
      ensures memoryCache == old(memoryCache) && cacheLoaded == old(cacheLoaded)
    {
      searchIndex := {};
      var rows := BuildIndex(memoryCache.Items());
      searchIndex := rows;
    }

    /**
     * `load_mitre_data`: nothing changes once loaded with some groups;
     * otherwise the chosen groups become the memory cache, the flag is set
     * and the index is rebuilt.
     */
    method LoadMitreData(cachedData: Groups, shouldUpdate: bool, fileData: Groups) returns (r: Groups)
      requires Valid() && cachedData.Valid() && fileData.Valid()
      modifies this
      ensures Valid() && r == memoryCache
      ensures old(cacheLoaded && memoryCache.keys != []) ==>
        memoryCache == old(memoryCache) && cacheLoaded && searchIndex == old(searchIndex)
      ensures !old(cacheLoaded && memoryCache.keys != []) ==>
        memoryCache == ChooseData(cachedData, shouldUpdate, fileData) && cacheLoaded
    {
      if cacheLoaded && memoryCache.keys != [] {
        return memoryCache;
      }
      if cachedData.keys == [] || shouldUpdate {
        if fileData.keys != [] {
          memoryCache := fileData;
        } else {
          memoryCache := cachedData;
        }
      } else {
        memoryCache := cachedData;
      }
      cacheLoaded := true;
      BuildSearchIndex();
      r := memoryCache;
    }

    /** `get_apt_group`. */
    function GetAptGroup(attackId: string): (r: Option<Group>)
      reads this
      ensures r.Some? <==> attackId in memoryCache.vals
      ensures r.Some? ==> r.value == memoryCache.vals[attackId]
    {
      memoryCache.Get(attackId)
    }

    method GetAllTechniques() returns (techniques: TechniqueUsers)
      requires Valid()
      ensures techniques == AllTechniques(memoryCache.Values())
    {
      techniques := CacheLookup.GetAllTechniques(memoryCache.Values());
    }

    method GetAptGroupsByTechnique(techniqueId: string) returns (matchingGroups: seq<Group>)
      requires Valid()
      ensures matchingGroups == GroupsByTechnique(techniqueId, memoryCache.Values())
    {
      matchingGroups := CacheLookup.GetAptGroupsByTechnique(memoryCache.Values(), techniqueId);
    }

    method GetAptGroupsBySoftware(softwareName: string) returns (matchingGroups: seq<Group>)
      requires Valid()
      ensures matchingGroups == GroupsBySoftware(softwareName, memoryCache.Values())
    {
      matchingGroups := CacheLookup.GetAptGroupsBySoftware(memoryCache.Values(), softwareName);
    }

    /** `search_apt_groups`, given the rows its `LIKE` queries returned. */
    method SearchAptGroups(rows: seq<MatchRow>, maxResults: nat) returns (results: seq<SearchHit>)
      requires Valid()
      ensures results == Ranked(Hits(memoryCache, rows), maxResults)
    {
      results := RankResults(memoryCache, rows, maxResults);
    }
  }
}
