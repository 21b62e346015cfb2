/**
 * HeroesComponent: the editable hero list. It loads the list from the
 * service, appends whatever `addHero` yields, and removes a hero by
 * reference before asking the service to delete it.
 *
 * Each subscription callback runs as soon as the service yields, with the
 * backend's outcome given as a parameter.
 */
module HeroList {
  import opened Wrappers
  import opened Text
  import opened Service

  /** `list.filter(h => h !== x)`: the entries other than `x`, in their order. */
  function Without<T(==)>(list: seq<T>, x: T): (r: seq<T>)
    ensures |r| <= |list|
    ensures forall i :: 0 <= i < |r| ==> r[i] != x && r[i] in list
    ensures forall i :: 0 <= i < |list| && list[i] != x ==> list[i] in r
    decreases |list|
  {
    if list == [] then []
    else (if list[0] != x then [list[0]] else []) + Without(list[1..], x)
  }

  /**
   * Filtering distributes over concatenation, so an entry kept from the front
   * of the list stays in front of one kept from the back: relative order is
   * preserved.
   */
  lemma {:induction false} WithoutAppend<T>(a: seq<T>, b: seq<T>, x: T)
    ensures Without(a + b, x) == Without(a, x) + Without(b, x)
    decreases |a|
  {
    if a == [] {
      assert a + b == b;
    } else {
      assert (a + b)[0] == a[0] && (a + b)[1..] == a[1..] + b;
      WithoutAppend(a[1..], b, x);
    }
  }

  /** Every entry reference-identical to `x` goes, and every other entry stays as often as it was there. */
  lemma {:induction false} WithoutCounts<T>(list: seq<T>, x: T)
    ensures multiset(Without(list, x)) == multiset(list)[x := 0]
    decreases |list|
  {
    if list != [] {
      assert list == [list[0]] + list[1..];
      WithoutCounts(list[1..], x);
    }
  }

  /** Deleting the same hero again leaves the list as the first delete left it. */
  lemma {:induction false} WithoutIdempotent<T>(list: seq<T>, x: T)
    ensures Without(Without(list, x), x) == Without(list, x)
    decreases |list|
  {
    if list != [] {
      WithoutIdempotent(list[1..], x);
      if list[0] != x {
        assert Without(list, x) == [list[0]] + Without(list[1..], x);
        WithoutAppend([list[0]], Without(list[1..], x), x);
      } else {
        assert Without(list, x) == [] + Without(list[1..], x) == Without(list[1..], x);
      }
    }
  }

  class HeroesComponent {
    const heroService: HeroService
    /** The heroes on display; a failed `addHero` pushes its absent result here too. */
    var heroes: seq<Hero?>

    constructor (heroService: HeroService)
      ensures this.heroService == heroService && heroes == []
    {
      this.heroService := heroService;
      heroes := [];
    }

    /** `getHeroes`: replace the list by what the service yields (`[]` on failure). */
    method GetHeroes(backend: Outcome<seq<Hero>>)
      modifies this, heroService, heroService.messageService
      ensures heroes == GetHeroesReply(backend).value
      ensures backend.Err? ==> heroes == []
      ensures heroService.requests == old(heroService.requests) + [GetAll]
      ensures heroService.messageService.messages ==
        old(heroService.messageService.messages) + GetHeroesReply(backend).logged
    {
      var fetched := heroService.GetHeroes(backend);
      heroes := fetched;
    }

    /**
     * `add`: a blank name is ignored with no service call; otherwise a new hero
     * with the trimmed name and no id is posted, and whatever `addHero` yields
     * (absent on failure) is appended.
     */
    method Add(name: string, backend: Outcome<Hero>)
      modifies this, heroService, heroService.messageService
      ensures IsBlank(name) ==>
        && heroes == old(heroes)
        && heroService.requests == old(heroService.requests)
        && heroService.messageService.messages == old(heroService.messageService.messages)
      ensures !IsBlank(name) ==>
        && |heroService.requests| == |old(heroService.requests)| + 1
        && heroService.requests[..|old(heroService.requests)|] == old(heroService.requests)
        && heroService.requests[|old(heroService.requests)|].Post?
        && fresh(heroService.requests[|old(heroService.requests)|].hero)
        && heroService.requests[|old(heroService.requests)|].hero.id == None
        && heroService.requests[|old(heroService.requests)|].hero.name == Trim(name)
        && heroes == old(heroes) + [AddHeroReply(backend).value]
        && heroService.messageService.messages ==
           old(heroService.messageService.messages) + AddHeroReply(backend).logged
    {
      var trimmed := Trim(name);
      if trimmed == [] {
        return;
      }
      var hero := new Hero(None, trimmed);
      var added := heroService.AddHero(hero, backend);
      heroes := heroes + [added];
    }

    /**
     * `delete`: drop every entry that is this very hero from the list, whatever
     * the backend then answers, and ask the service to delete the hero's id.
     */
    method Delete(hero: Hero, backend: Outcome<Hero?>)
      modifies this, heroService, heroService.messageService
      ensures heroes == Without(old(heroes), hero)
      ensures heroService.requests == old(heroService.requests) + [DeleteById(hero.id)]
      ensures heroService.messageService.messages ==
        old(heroService.messageService.messages) + DeleteHeroReply(hero.id, backend).logged
    {
      heroes := Without(heroes, hero);
      var _ := heroService.DeleteHero(hero.id, backend);
    }
  }
}
