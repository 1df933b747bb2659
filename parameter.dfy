/**
  Code Table 4.2: parameters by discipline, category and number, with the
  per-centre local tables of NCEP and DWD laid over the master table.
  The hundreds of literal table entries are not part of this model: the
  master table and each local table are sequences given to ParameterTable.
 */
module Parameters {
  import opened Wrappers

  /** A parameter category of a discipline (Code Table 4.1 entry). */
  datatype ParameterCategory = ParameterCategory(discipline: int, code: int, name: string)

  /** A parameter descriptor (Code Table 4.2 entry). */
  datatype Parameter = Parameter(category: ParameterCategory, code: int, name: string, unit: string, localUse: bool)

  /** Originating centre of the US NCEP local table (WMO Common Code Table C-11). */
  const NcepCenter := 7
  /** Originating centre of the DWD (Offenbach) local table (WMO Common Code Table C-11). */
  const DwdCenter := 78

  /** The internal constructor, used by the local tables; `localUse` defaults to true. */
  function LocalParameter(category: ParameterCategory, code: int, name: string, unit: string, localUse: bool := true)
    : (p: Parameter)
    ensures p.category == category && p.code == code && p.name == name && p.unit == unit
    ensures p.localUse == localUse
  {
    Parameter(category, code, name, unit, localUse)
  }

  /** The private constructor, used by the master table: never a local-use parameter. */
  function MasterParameter(category: ParameterCategory, code: int, name: string, unit: string): (p: Parameter)
    ensures p.category == category && p.code == code && p.name == name && p.unit == unit
    ensures !p.localUse
  {
    LocalParameter(category, code, name, unit, false)
  }

  /** The parameters of `ps` in category `c`, in input order. */
  function InCategory(ps: seq<Parameter>, c: ParameterCategory): seq<Parameter>
  {
    if ps == [] then [] else (if ps[0].category == c then [ps[0]] else []) + InCategory(ps[1..], c)
  }

  /** The categories that occur in `ps`. */
  function CategoriesOf(ps: seq<Parameter>): set<ParameterCategory>
  {
    set p | p in ps :: p.category
  }

  lemma {:induction false} InCategoryMembers(ps: seq<Parameter>, c: ParameterCategory)
    ensures forall q :: q in InCategory(ps, c) <==> q in ps && q.category == c
  {
    if ps != [] {
      InCategoryMembers(ps[1..], c);
      assert ps == [ps[0]] + ps[1..];
    }
  }

  /** No entry of a category is lost or duplicated by the grouping. */
  lemma {:induction false} InCategoryMultiplicity(ps: seq<Parameter>, c: ParameterCategory)
    ensures forall q :: multiset(InCategory(ps, c))[q] == if q.category == c then multiset(ps)[q] else 0
  {
    if ps != [] {
      InCategoryMultiplicity(ps[1..], c);
      assert ps == [ps[0]] + ps[1..];
    }
  }

  lemma {:induction false} InCategoryEmpty(ps: seq<Parameter>, c: ParameterCategory)
    ensures c !in CategoriesOf(ps) <==> InCategory(ps, c) == []
  {
    if ps != [] {
      InCategoryEmpty(ps[1..], c);
      assert ps[0] in ps;
      assert CategoriesOf(ps) == {ps[0].category} + CategoriesOf(ps[1..]) by {
        assert ps == [ps[0]] + ps[1..];
      }
    }
  }

  /** Grouping a concatenation keeps the entries of the first part ahead of the second. */
  lemma {:induction false} InCategoryAppend(a: seq<Parameter>, b: seq<Parameter>, c: ParameterCategory)
    ensures InCategory(a + b, c) == InCategory(a, c) + InCategory(b, c)
  {
    if a != [] {
      assert (a + b)[1..] == a[1..] + b;
      InCategoryAppend(a[1..], b, c);
    } else {
      assert a + b == b;
    }
  }

  /**
    BuildParameterDictionary: groups the parameters by their category; each
    group holds that category's parameters in input order.
   */
  function BuildParameterDictionary(ps: seq<Parameter>): map<ParameterCategory, seq<Parameter>>
  {
    map c | c in CategoriesOf(ps) :: InCategory(ps, c)
  }

  /**
    The keys are exactly the categories some parameter carries and no group
    is empty; every parameter lands in the group of its own category, every
    group holds only parameters of its category, and no entry is lost or
    duplicated.
   */
  lemma BuildParameterDictionaryGroups(ps: seq<Parameter>)
    ensures var d := BuildParameterDictionary(ps);
      && (forall c :: c in d <==> exists p :: p in ps && p.category == c)
      && (forall c :: c in d ==> d[c] != [])
      && (forall p :: p in ps ==> p.category in d && p in d[p.category])
      && (forall c, q :: c in d && q in d[c] ==> q.category == c && q in ps)
      && (forall c, q :: c in d ==> multiset(d[c])[q] == if q.category == c then multiset(ps)[q] else 0)
  {
    var d := BuildParameterDictionary(ps);
    forall c | c in d
      ensures d[c] != []
      ensures forall q: Parameter :: q in d[c] <==> q in ps && q.category == c
      ensures forall q: Parameter :: multiset(d[c])[q] == if q.category == c then multiset(ps)[q] else 0
    {
      InCategoryEmpty(ps, c);
      InCategoryMembers(ps, c);
      InCategoryMultiplicity(ps, c);
    }
    forall p | p in ps
      ensures p.category in d && p in d[p.category]
    {
      InCategoryMembers(ps, p.category);
    }
  }

  /** The group of `c`, empty when `c` has no parameter. */
  function GroupOf(d: map<ParameterCategory, seq<Parameter>>, c: ParameterCategory): seq<Parameter>
  {
    if c in d then d[c] else []
  }

  /** The grouping of a concatenation is the groupwise concatenation, in that order. */
  lemma BuildParameterDictionaryAppend(a: seq<Parameter>, b: seq<Parameter>, c: ParameterCategory)
    ensures GroupOf(BuildParameterDictionary(a + b), c)
         == GroupOf(BuildParameterDictionary(a), c) + GroupOf(BuildParameterDictionary(b), c)
  {
    InCategoryAppend(a, b, c);
    InCategoryMembers(a, c);
    InCategoryMembers(b, c);
    InCategoryMembers(a + b, c);
    InCategoryEmpty(a, c);
    InCategoryEmpty(b, c);
    if c in CategoriesOf(a + b) {
      var p :| p in a + b && p.category == c;
    }
  }

  /** The local table laid over the master table for a centre. */
  function LocalOverlay(centerCode: int, ncep: seq<Parameter>, dwd: seq<Parameter>): seq<Parameter>
  {
    if centerCode == NcepCenter then ncep else if centerCode == DwdCenter then dwd else []
  }

  /** The grouping ParametersByCategoryWithLocalTables yields for a centre. */
  function GroupingFor(master: seq<Parameter>, ncep: seq<Parameter>, dwd: seq<Parameter>, centerCode: int)
    : map<ParameterCategory, seq<Parameter>>
  {
    if centerCode < 0 || centerCode > 254 then BuildParameterDictionary(master)
    else BuildParameterDictionary(master + LocalOverlay(centerCode, ncep, dwd))
  }

  /** An in-range centre without a local table sees exactly the master grouping. */
  lemma OtherCentresSeeMaster(master: seq<Parameter>, ncep: seq<Parameter>, dwd: seq<Parameter>, centerCode: int)
    requires 0 <= centerCode <= 254 && centerCode != NcepCenter && centerCode != DwdCenter
    ensures GroupingFor(master, ncep, dwd, centerCode) == BuildParameterDictionary(master)
  {
    assert master + [] == master;
  }

  /** The first category of a discipline's list with the given code. */
  function FirstCategoryWithCode(categories: seq<ParameterCategory>, code: int): (r: Option<ParameterCategory>)
  {
    if categories == [] then None
    else if categories[0].code == code then Some(categories[0])
    else FirstCategoryWithCode(categories[1..], code)
  }

  /** The first parameter of a group with the given number. */
  function FirstParameterWithCode(ps: seq<Parameter>, code: int): (r: Option<Parameter>)
  {
    if ps == [] then None
    else if ps[0].code == code then Some(ps[0])
    else FirstParameterWithCode(ps[1..], code)
  }

  /** The category found is the first one of the list carrying the code; none means no category has it. */
  lemma {:induction false} FirstCategoryWithCodeIsFirst(categories: seq<ParameterCategory>, code: int)
    ensures FirstCategoryWithCode(categories, code).None? <==> forall c :: c in categories ==> c.code != code
    ensures FirstCategoryWithCode(categories, code).Some? ==>
      exists i :: 0 <= i < |categories| && categories[i] == FirstCategoryWithCode(categories, code).value
        && categories[i].code == code && forall j :: 0 <= j < i ==> categories[j].code != code
  {
    if categories != [] {
      FirstCategoryWithCodeIsFirst(categories[1..], code);
      assert categories == [categories[0]] + categories[1..];
      if categories[0].code != code && FirstCategoryWithCode(categories[1..], code).Some? {
        var i :| 0 <= i < |categories[1..]| && categories[1..][i] == FirstCategoryWithCode(categories[1..], code).value
          && categories[1..][i].code == code && forall j :: 0 <= j < i ==> categories[1..][j].code != code;
        assert categories[i + 1] == categories[1..][i];
        assert forall j :: 0 <= j < i + 1 ==> categories[j].code != code by {
          forall j | 0 <= j < i + 1 ensures categories[j].code != code {
            if j > 0 {
              assert categories[j] == categories[1..][j - 1];
            }
          }
        }
      }
    }
  }

  /** The parameter found is the first of the group with the number; none means no parameter has it. */
  lemma {:induction false} FirstParameterWithCodeIsFirst(ps: seq<Parameter>, code: int)
    ensures FirstParameterWithCode(ps, code).None? <==> forall p :: p in ps ==> p.code != code
    ensures FirstParameterWithCode(ps, code).Some? ==>
      exists i :: 0 <= i < |ps| && ps[i] == FirstParameterWithCode(ps, code).value
        && ps[i].code == code && forall j :: 0 <= j < i ==> ps[j].code != code
  {
    if ps != [] {
      FirstParameterWithCodeIsFirst(ps[1..], code);
      assert ps == [ps[0]] + ps[1..];
      if ps[0].code != code && FirstParameterWithCode(ps[1..], code).Some? {
        var i :| 0 <= i < |ps[1..]| && ps[1..][i] == FirstParameterWithCode(ps[1..], code).value
          && ps[1..][i].code == code && forall j :: 0 <= j < i ==> ps[1..][j].code != code;
        assert ps[i + 1] == ps[1..][i];
        assert forall j :: 0 <= j < i + 1 ==> ps[j].code != code by {
          forall j | 0 <= j < i + 1 ensures ps[j].code != code {
            if j > 0 {
              assert ps[j] == ps[1..][j - 1];
            }
          }
        }
      }
    }
  }

  /** First match over a concatenation: the first part wins when it has a match. */
  lemma {:induction false} FirstParameterWithCodeAppend(a: seq<Parameter>, b: seq<Parameter>, code: int)
    ensures FirstParameterWithCode(a + b, code)
         == if FirstParameterWithCode(a, code).Some? then FirstParameterWithCode(a, code) else FirstParameterWithCode(b, code)
  {
    if a != [] {
      assert (a + b)[1..] == a[1..] + b;
      FirstParameterWithCodeAppend(a[1..], b, code);
    } else {
      assert a + b == b;
    }
  }

  /**
    The two-stage lookup of Parameter.Get over a grouping: the first category
    of the discipline with the category code, then the first parameter of that
    category's group with the parameter number.
   */
  function Lookup(categoriesByDiscipline: map<int, seq<ParameterCategory>>, grouping: map<ParameterCategory, seq<Parameter>>,
                  discipline: int, parameterCategory: int, parameterNumber: int): Option<Parameter>
  {
    if discipline in categoriesByDiscipline then
      match FirstCategoryWithCode(categoriesByDiscipline[discipline], parameterCategory)
      case Some(c) => if c in grouping then FirstParameterWithCode(grouping[c], parameterNumber) else None
      case None => None
    else None
  }

  /** Get asks for a grouping only when the discipline is known and one of its categories has the code. */
  predicate ReachesGrouping(categoriesByDiscipline: map<int, seq<ParameterCategory>>, discipline: int, parameterCategory: int)
  {
    discipline in categoriesByDiscipline && FirstCategoryWithCode(categoriesByDiscipline[discipline], parameterCategory).Some?
  }

  /**
    Get finds nothing exactly when the discipline has no category list, no
    category has the code, the first such category has no group, or no
    parameter of that group has the number.
   */
  lemma LookupAbsent(categoriesByDiscipline: map<int, seq<ParameterCategory>>, grouping: map<ParameterCategory, seq<Parameter>>,
                     discipline: int, parameterCategory: int, parameterNumber: int)
    ensures Lookup(categoriesByDiscipline, grouping, discipline, parameterCategory, parameterNumber).None? <==>
      || discipline !in categoriesByDiscipline
      || FirstCategoryWithCode(categoriesByDiscipline[discipline], parameterCategory).None?
      || (var c := FirstCategoryWithCode(categoriesByDiscipline[discipline], parameterCategory).value;
          c !in grouping || forall p :: p in grouping[c] ==> p.code != parameterNumber)
  {
    if discipline in categoriesByDiscipline {
      var cs := categoriesByDiscipline[discipline];
      FirstCategoryWithCodeIsFirst(cs, parameterCategory);
      var first := FirstCategoryWithCode(cs, parameterCategory);
      if first.Some? && first.value in grouping {
        FirstParameterWithCodeIsFirst(grouping[first.value], parameterNumber);
      }
    }
  }

  /**
    A parameter found by Get carries the requested number and belongs to the
    first category of the discipline with the requested code.
   */
  lemma LookupFound(categoriesByDiscipline: map<int, seq<ParameterCategory>>, ps: seq<Parameter>,
                    discipline: int, parameterCategory: int, parameterNumber: int, p: Parameter)
    requires Lookup(categoriesByDiscipline, BuildParameterDictionary(ps), discipline, parameterCategory, parameterNumber) == Some(p)
    ensures discipline in categoriesByDiscipline
    ensures FirstCategoryWithCode(categoriesByDiscipline[discipline], parameterCategory) == Some(p.category)
    ensures p.category.code == parameterCategory && p.code == parameterNumber && p in ps
  {
    var c := FirstCategoryWithCode(categoriesByDiscipline[discipline], parameterCategory).value;
    FirstCategoryWithCodeIsFirst(categoriesByDiscipline[discipline], parameterCategory);
    FirstParameterWithCodeIsFirst(BuildParameterDictionary(ps)[c], parameterNumber);
    BuildParameterDictionaryGroups(ps);
  }

  /**
    Master entries precede the local overlay, so whenever the master table has
    a parameter for the category and number, the overlay cannot change what
    Get returns.
   */
  lemma MasterEntryWins(categoriesByDiscipline: map<int, seq<ParameterCategory>>, master: seq<Parameter>,
                        ncep: seq<Parameter>, dwd: seq<Parameter>, centerCode: int,
                        discipline: int, parameterCategory: int, parameterNumber: int)
    requires Lookup(categoriesByDiscipline, BuildParameterDictionary(master), discipline, parameterCategory, parameterNumber).Some?
    ensures Lookup(categoriesByDiscipline, GroupingFor(master, ncep, dwd, centerCode), discipline, parameterCategory, parameterNumber)
         == Lookup(categoriesByDiscipline, BuildParameterDictionary(master), discipline, parameterCategory, parameterNumber)
  {
    if 0 <= centerCode <= 254 {
      var c := FirstCategoryWithCode(categoriesByDiscipline[discipline], parameterCategory).value;
      var local := LocalOverlay(centerCode, ncep, dwd);
      BuildParameterDictionaryAppend(master, local, c);
      FirstParameterWithCodeAppend(GroupOf(BuildParameterDictionary(master), c), GroupOf(BuildParameterDictionary(local), c), parameterNumber);
    }
  }

  /**
    The static caches of the parameter table: the master grouping, the last
    grouping built with a local overlay, and the centre it was built for.
   */
  class ParameterTable {
    /** ParameterCategory.CategoriesByDiscipline: each discipline's categories. */
    const categoriesByDiscipline: map<int, seq<ParameterCategory>>
    /** The master table, in declaration order. */
    const master: seq<Parameter>
    /** The NCEP local table. */
    const ncepLocal: seq<Parameter>
    /** The DWD local table. */
    const dwdLocal: seq<Parameter>

    var parametersByCategoryCache: Option<map<ParameterCategory, seq<Parameter>>>
    var parametersByCategoryWithLocalTablesCache: Option<map<ParameterCategory, seq<Parameter>>>
    var previousCenterCodeCache: int

    /** Each filled cache holds what a fresh build would give. */
    ghost predicate Valid()
      reads this
    {
      && (parametersByCategoryCache.Some? ==> parametersByCategoryCache.value == BuildParameterDictionary(master))
      && (parametersByCategoryWithLocalTablesCache.Some? ==>
            && 0 <= previousCenterCodeCache <= 254
            && parametersByCategoryWithLocalTablesCache.value == GroupingFor(master, ncepLocal, dwdLocal, previousCenterCodeCache))
    }

    constructor (categoriesByDiscipline: map<int, seq<ParameterCategory>>, master: seq<Parameter>,
                 ncepLocal: seq<Parameter>, dwdLocal: seq<Parameter>)
      ensures Valid()
      ensures this.categoriesByDiscipline == categoriesByDiscipline && this.master == master
      ensures this.ncepLocal == ncepLocal && this.dwdLocal == dwdLocal
      ensures parametersByCategoryCache == None && parametersByCategoryWithLocalTablesCache == None
      ensures previousCenterCodeCache == -1
    {
      this.categoriesByDiscipline := categoriesByDiscipline;
      this.master := master;
      this.ncepLocal := ncepLocal;
      this.dwdLocal := dwdLocal;
      parametersByCategoryCache := None;
      parametersByCategoryWithLocalTablesCache := None;
      previousCenterCodeCache := -1;
    }

    /**
      The caches after ParametersByCategoryWithLocalTables(centerCode): an
      out-of-range centre goes through ParametersByCategory, which fills the
      master cache, and leaves the local cache and the previous centre alone;
      any other centre leaves the master cache alone and ends with the local
      cache holding its grouping, built for that centre.
     */
    twostate predicate CachesAfterGrouping(centerCode: int)
      reads this
    {
      if centerCode < 0 || centerCode > 254 then
        && parametersByCategoryCache == Some(BuildParameterDictionary(master))
        && parametersByCategoryWithLocalTablesCache == old(parametersByCategoryWithLocalTablesCache)
        && previousCenterCodeCache == old(previousCenterCodeCache)
      else
        && parametersByCategoryCache == old(parametersByCategoryCache)
        && parametersByCategoryWithLocalTablesCache == Some(GroupingFor(master, ncepLocal, dwdLocal, centerCode))
        && previousCenterCodeCache == centerCode
    }

    /**
      The caches after Get: the grouping is fetched, with the effect above,
      only when the discipline is known and one of its categories has the
      code; otherwise Get returns before touching any cache.
     */
    twostate predicate CachesAfterGet(discipline: int, centerCode: int, parameterCategory: int)
      reads this
    {
      if ReachesGrouping(categoriesByDiscipline, discipline, parameterCategory) then
        CachesAfterGrouping(centerCode)
      else
        && parametersByCategoryCache == old(parametersByCategoryCache)
        && parametersByCategoryWithLocalTablesCache == old(parametersByCategoryWithLocalTablesCache)
        && previousCenterCodeCache == old(previousCenterCodeCache)
    }

    /** ParametersByCategory: the master grouping, built once and then served from the cache. */
    method ParametersByCategory() returns (d: map<ParameterCategory, seq<Parameter>>)
      requires Valid()
      modifies this`parametersByCategoryCache
      ensures Valid()
      ensures d == BuildParameterDictionary(master)
      ensures parametersByCategoryCache == Some(d)
      ensures old(parametersByCategoryCache).Some? ==> parametersByCategoryCache == old(parametersByCategoryCache)
    {
      if parametersByCategoryCache == None {
        parametersByCategoryCache := Some(BuildParameterDictionary(master));
      }
      d := parametersByCategoryCache.value;
    }

    /**
      ParametersByCategoryWithLocalTables: out-of-range centres get the master
      grouping and leave the local cache alone; other centres rebuild the
      cache only when it is empty or was built for another centre.
     */
    method ParametersByCategoryWithLocalTables(centerCode: int) returns (d: map<ParameterCategory, seq<Parameter>>)
      requires Valid()
      modifies this`parametersByCategoryCache, this`parametersByCategoryWithLocalTablesCache, this`previousCenterCodeCache
      ensures Valid()
      ensures d == GroupingFor(master, ncepLocal, dwdLocal, centerCode)
      ensures CachesAfterGrouping(centerCode)
      ensures 0 <= centerCode <= 254 && old(parametersByCategoryWithLocalTablesCache).Some?
              && centerCode == old(previousCenterCodeCache) ==>
        parametersByCategoryWithLocalTablesCache == old(parametersByCategoryWithLocalTablesCache)
    {
      if centerCode < 0 || centerCode > 254 {
        d := ParametersByCategory();
        return;
      }
      if parametersByCategoryWithLocalTablesCache == None || centerCode != previousCenterCodeCache {
        var parameters := master;
        if centerCode == NcepCenter {
          parameters := parameters + ncepLocal;
        } else if centerCode == DwdCenter {
          parameters := parameters + dwdLocal;
        } else {
          assert parameters == master + [];
        }
        parametersByCategoryWithLocalTablesCache := Some(BuildParameterDictionary(parameters));
        previousCenterCodeCache := centerCode;
      }
      d := parametersByCategoryWithLocalTablesCache.value;
    }

    /** Parameter.Get: the two-stage first-match lookup through the centre's grouping. */
    method Get(discipline: int, centerCode: int, parameterCategory: int, parameterNumber: int) returns (p: Option<Parameter>)
      requires Valid()
      modifies this`parametersByCategoryCache, this`parametersByCategoryWithLocalTablesCache, this`previousCenterCodeCache
      ensures Valid()
      ensures p == Lookup(categoriesByDiscipline, GroupingFor(master, ncepLocal, dwdLocal, centerCode),
                          discipline, parameterCategory, parameterNumber)
      ensures CachesAfterGet(discipline, centerCode, parameterCategory)
    {
      if discipline in categoriesByDiscipline {
        var category := FirstCategoryWithCode(categoriesByDiscipline[discipline], parameterCategory);
        if category.Some? {
          var grouping := ParametersByCategoryWithLocalTables(centerCode);
          if category.value in grouping {
            return FirstParameterWithCode(grouping[category.value], parameterNumber);
          }
        }
      }
      return None;
    }
  }
}
