/**
 * DashboardComponent: shows the heroes at positions 1 to 4 of the fetched
 * list (`heroes.slice(1, 5)`).
 */
module Dashboard {
  import opened Service

  /** Where a `slice` argument lands in a list of length `len`: negative counts from the end, then clamped. */
  function RelativeIndex(len: nat, k: int): (i: nat)
    ensures i <= len
    ensures 0 <= k ==> i == if k < len then k else len
    ensures k < 0 ==> i == if len + k < 0 then 0 else len + k
  {
    if k < 0 then (if len + k < 0 then 0 else len + k)
    else if k < len then k else len
  }

  /** `Array.prototype.slice(start, end)`: the entries from `start` up to, not including, `end`, clamped to the list. */
  function Slice<T>(s: seq<T>, start: int, end: int): (r: seq<T>)
    ensures |r| == if RelativeIndex(|s|, start) < RelativeIndex(|s|, end)
                   then RelativeIndex(|s|, end) - RelativeIndex(|s|, start) else 0
    ensures forall i :: 0 <= i < |r| ==> r[i] == s[RelativeIndex(|s|, start) + i]
  {
    var from, to := RelativeIndex(|s|, start), RelativeIndex(|s|, end);
    if from < to then s[from..to] else []
  }

  /**
   * `heroes.slice(1, 5)`: at most four heroes, the entries after the first,
   * in their fetched order; nothing when at most one hero was fetched.
   */
  function TopHeroes<T>(fetched: seq<T>): (shown: seq<T>)
    ensures |shown| == if |fetched| <= 1 then 0 else if |fetched| < 5 then |fetched| - 1 else 4
    ensures |shown| <= 4
    ensures forall i :: 0 <= i < |shown| ==> shown[i] == fetched[i + 1]
  {
    Slice(fetched, 1, 5)
  }

  /** A failed fetch leaves the dashboard empty. */
  lemma EmptyOnFailure(message: string)
    ensures TopHeroes(GetHeroesReply(Err(message)).value) == []
  {
  }

  class DashboardComponent {
    const heroService: HeroService
    var heroes: seq<Hero>

    constructor (heroService: HeroService)
      ensures this.heroService == heroService && heroes == []
    {
      this.heroService := heroService;
      heroes := [];
    }

    /** `getHeroes`: replace the shown list by the top slice of what the service yields. */
    method GetHeroes(backend: Outcome<seq<Hero>>)
      modifies this, heroService, heroService.messageService
      ensures heroes == TopHeroes(GetHeroesReply(backend).value)
      ensures heroService.requests == old(heroService.requests) + [GetAll]
      ensures heroService.messageService.messages ==
        old(heroService.messageService.messages) + GetHeroesReply(backend).logged
    {
      var fetched := heroService.GetHeroes(backend);
      heroes := TopHeroes(fetched);
    }
  }
}
