/**
 * HeroService: the data-service layer. Every operation calls the backend,
 * logs one line on success and passes the value through; on failure
 * `handleError` logs `<operation> failed: <message>` and yields a safe
 * result, so no failure reaches the caller.
 *
 * The HTTP call is an input `Outcome`: the backend's value, or the error
 * message it failed with. Each operation is specified by a pure `...Reply`
 * function giving the value the operation yields and the lines it logs; the
 * `HeroService` methods do the logging on the shared MessageService and are
 * proved against those functions.
 */
module Service {
  import opened Wrappers
  import opened Text
  import Messages

  /** A hero record; its identity is the object reference. */
  class Hero {
    /** Absent for a hero built on the client and not yet saved. */
    const id: Option<int>
    const name: string

    constructor (id: Option<int>, name: string)
      ensures this.id == id && this.name == name
    {
      this.id := id;
      this.name := name;
    }
  }

  /** What an HTTP call produced: a value, or a failure with its message. */
  datatype Outcome<T> = Ok(value: T) | Err(message: string)

  /** The HTTP request an operation sends to the backend. */
  datatype Request =
    | GetAll                        // GET api/heroes
    | GetWhereId(id: int)           // GET api/heroes/?id=<id>
    | GetById(id: int)              // GET api/heroes/<id>
    | Put(hero: Hero)               // PUT api/heroes
    | Post(hero: Hero)              // POST api/heroes
    | DeleteById(target: Option<int>) // DELETE api/heroes/<id>
    | GetWhereName(term: string)    // GET api/heroes/?name=<term>

  /** What an operation yields to its subscriber, with the lines it logged. */
  datatype Reply<T> = Reply(value: T, logged: seq<string>)

  const Prefix := "HeroService: "

  /** The line `log` adds for a message. */
  function LogLine(message: string): string {
    Prefix + message
  }

  /** A hero id as a template literal renders it. */
  function IdText(id: Option<int>): string {
    match id
    case Some(n) => IntToString(n)
    case None => "undefined"
  }

  /** `handleError(operation, result)` applied to a failure: report it and yield `result`. */
  function Fallback<T>(operation: string, result: T, message: string): (r: Reply<T>)
    ensures r.value == result
    ensures |r.logged| == 1 && r.logged[0] == Prefix + operation + " failed: " + message
  {
    Reply(result, [LogLine(operation + " failed: " + message)])
  }

  /** `getHeroes`: the fetched list unchanged, or `[]` on failure. */
  function GetHeroesReply(backend: Outcome<seq<Hero>>): (r: Reply<seq<Hero>>)
    ensures backend.Ok? ==> r.value == backend.value && |r.logged| == 1 && r.logged[0] == Prefix + "fetched heroes"
    ensures backend.Err? ==> r.value == [] && |r.logged| == 1 && r.logged[0] == Prefix + "getHeroes failed: " + backend.message
  {
    match backend
    case Ok(heroes) => Reply(heroes, [LogLine("fetched heroes")])
    case Err(message) => Fallback("getHeroes", [], message)
  }

  /** `getHeroNo404`: the first hero of the matching list, absent when there is none or on failure. */
  function GetHeroNo404Reply(id: int, backend: Outcome<seq<Hero>>): (r: Reply<Hero?>)
    ensures backend.Ok? && backend.value != [] ==>
      r.value == backend.value[0] && |r.logged| == 1 && r.logged[0] == Prefix + "fetched hero id=" + IntToString(id)
    ensures backend.Ok? && backend.value == [] ==>
      r.value == null && |r.logged| == 1 && r.logged[0] == Prefix + "did not find hero id=" + IntToString(id)
    ensures backend.Err? ==>
      r.value == null && |r.logged| == 1 && r.logged[0] == Prefix + "getHero id=" + IntToString(id) + " failed: " + backend.message
  {
    match backend
    case Ok(heroes) =>
      if heroes != [] then Reply(heroes[0], [LogLine("fetched hero id=" + IntToString(id))])
      else Reply(null, [LogLine("did not find hero id=" + IntToString(id))])
    case Err(message) => Fallback("getHero id=" + IntToString(id), null, message)
  }

  /** `getHero`: the fetched hero, absent on failure. */
  function GetHeroReply(id: int, backend: Outcome<Hero>): (r: Reply<Hero?>)
    ensures backend.Ok? ==> r.value == backend.value && |r.logged| == 1 && r.logged[0] == Prefix + "fetched hero id=" + IntToString(id)
    ensures backend.Err? ==>
      r.value == null && |r.logged| == 1 && r.logged[0] == Prefix + "getHero id=" + IntToString(id) + " failed: " + backend.message
  {
    match backend
    case Ok(hero) => Reply(hero, [LogLine("fetched hero id=" + IntToString(id))])
    case Err(message) => Fallback("getHero id=" + IntToString(id), null, message)
  }

  /** `updateHero`: the server's answer, absent on failure; the failure label carries no id. */
  function UpdateHeroReply<T>(hero: Hero, backend: Outcome<T>): (r: Reply<Option<T>>)
    ensures backend.Ok? ==> r.value == Some(backend.value) && |r.logged| == 1 && r.logged[0] == Prefix + "updated hero id=" + IdText(hero.id)
    ensures backend.Err? ==> r.value == None && |r.logged| == 1 && r.logged[0] == Prefix + "updateHero failed: " + backend.message
  {
    match backend
    case Ok(answer) => Reply(Some(answer), [LogLine("updated hero id=" + IdText(hero.id))])
    case Err(message) => Fallback("updateHero", None, message)
  }

  /** `addHero`: the hero the server created (logged with its new id), absent on failure. */
  function AddHeroReply(backend: Outcome<Hero>): (r: Reply<Hero?>)
    ensures backend.Ok? ==> r.value == backend.value && |r.logged| == 1 && r.logged[0] == Prefix + "added hero w/ id=" + IdText(backend.value.id)
    ensures backend.Err? ==> r.value == null && |r.logged| == 1 && r.logged[0] == Prefix + "addHero failed: " + backend.message
  {
    match backend
    case Ok(newHero) => Reply(newHero, [LogLine("added hero w/ id=" + IdText(newHero.id))])
    case Err(message) => Fallback("addHero", null, message)
  }

  /** `deleteHero`: the server's answer, absent on failure; the failure label carries no id. */
  function DeleteHeroReply(id: Option<int>, backend: Outcome<Hero?>): (r: Reply<Hero?>)
    ensures backend.Ok? ==> r.value == backend.value && |r.logged| == 1 && r.logged[0] == Prefix + "deleted hero id=" + IdText(id)
    ensures backend.Err? ==> r.value == null && |r.logged| == 1 && r.logged[0] == Prefix + "deleteHero failed: " + backend.message
  {
    match backend
    case Ok(answer) => Reply(answer, [LogLine("deleted hero id=" + IdText(id))])
    case Err(message) => Fallback("deleteHero", null, message)
  }

  /** The request `searchHeroes` sends: none for a blank term, otherwise the term as typed. */
  function SearchRequest(term: string): (r: Option<Request>)
    ensures r == None <==> forall i :: 0 <= i < |term| ==> IsWhitespace(term[i])
    ensures r != None ==> r.value == GetWhereName(term)
  {
    if IsBlank(term) then None else Some(GetWhereName(term))
  }

  /**
   * `searchHeroes`: `[]` with nothing logged for a blank term; otherwise the
   * matches, logged as found or not found, or `[]` on failure.
   */
  function SearchHeroesReply(term: string, backend: Outcome<seq<Hero>>): (r: Reply<seq<Hero>>)
    ensures IsBlank(term) ==> r.value == [] && r.logged == []
    ensures !IsBlank(term) && backend.Ok? && backend.value != [] ==>
      r.value == backend.value && |r.logged| == 1 && r.logged[0] == Prefix + "found heroes matching \"" + term + "\""
    ensures !IsBlank(term) && backend.Ok? && backend.value == [] ==>
      r.value == [] && |r.logged| == 1 && r.logged[0] == Prefix + "no heroes matching \"" + term + "\""
    ensures !IsBlank(term) && backend.Err? ==>
      r.value == [] && |r.logged| == 1 && r.logged[0] == Prefix + "searchHeroes failed: " + backend.message
  {
    if IsBlank(term) then Reply([], [])
    else match backend
      case Ok(heroes) =>
        if |heroes| != 0 then Reply(heroes, [LogLine("found heroes matching \"" + term + "\"")])
        else Reply(heroes, [LogLine("no heroes matching \"" + term + "\"")])
      case Err(message) => Fallback("searchHeroes", [], message)
  }

  /** A blank search never depends on the backend: no call is made. */
  lemma BlankSearchIgnoresBackend(term: string, b1: Outcome<seq<Hero>>, b2: Outcome<seq<Hero>>)
    requires IsBlank(term)
    ensures SearchHeroesReply(term, b1) == SearchHeroesReply(term, b2) == Reply([], [])
  {
  }

  class HeroService {
    /** The MessageService the service was constructed with. */
    const messageService: Messages.MessageService
    /** The HTTP requests sent so far, oldest first. */
    ghost var requests: seq<Request>

    constructor (messageService: Messages.MessageService)
      ensures this.messageService == messageService && requests == []
    {
      this.messageService := messageService;
      requests := [];
    }

    /** `log`: add the message to the MessageService under the service's prefix. */
    method Log(message: string)
      modifies messageService
      ensures messageService.messages == old(messageService.messages) + [LogLine(message)]
    {
      messageService.Add(Prefix + message);
    }

    /** `handleError`'s handler: log the failure and yield `result`. */
    method HandleError<T>(operation: string, result: T, message: string) returns (r: T)
      modifies messageService
      ensures r == Fallback(operation, result, message).value
      ensures messageService.messages == old(messageService.messages) + Fallback(operation, result, message).logged
    {
      Log(operation + " failed: " + message);
      r := result;
    }

    method GetHeroes(backend: Outcome<seq<Hero>>) returns (heroes: seq<Hero>)
      modifies this, messageService
      ensures requests == old(requests) + [GetAll]
      ensures heroes == GetHeroesReply(backend).value
      ensures messageService.messages == old(messageService.messages) + GetHeroesReply(backend).logged
    {
      requests := requests + [GetAll];
      match backend
      case Ok(fetched) =>
        Log("fetched heroes");
        heroes := fetched;
      case Err(message) =>
        heroes := HandleError("getHeroes", [], message);
    }

    method GetHeroNo404(id: int, backend: Outcome<seq<Hero>>) returns (hero: Hero?)
      modifies this, messageService
      ensures requests == old(requests) + [GetWhereId(id)]
      ensures hero == GetHeroNo404Reply(id, backend).value
      ensures messageService.messages == old(messageService.messages) + GetHeroNo404Reply(id, backend).logged
    {
      requests := requests + [GetWhereId(id)];
      match backend
      case Ok(heroes) =>
        hero := if heroes != [] then heroes[0] else null;
        if hero != null {
          Log("fetched hero id=" + IntToString(id));
        } else {
          Log("did not find hero id=" + IntToString(id));
        }
      case Err(message) =>
        hero := HandleError("getHero id=" + IntToString(id), null, message);
    }

    method GetHero(id: int, backend: Outcome<Hero>) returns (hero: Hero?)
      modifies this, messageService
      ensures requests == old(requests) + [GetById(id)]
      ensures hero == GetHeroReply(id, backend).value
      ensures messageService.messages == old(messageService.messages) + GetHeroReply(id, backend).logged
    {
      requests := requests + [GetById(id)];
      match backend
      case Ok(fetched) =>
        Log("fetched hero id=" + IntToString(id));
        hero := fetched;
      case Err(message) =>
        hero := HandleError("getHero id=" + IntToString(id), null, message);
    }

    method UpdateHero<T>(hero: Hero, backend: Outcome<T>) returns (answer: Option<T>)
      modifies this, messageService
      ensures requests == old(requests) + [Put(hero)]
      ensures answer == UpdateHeroReply(hero, backend).value
      ensures messageService.messages == old(messageService.messages) + UpdateHeroReply(hero, backend).logged
    {
      requests := requests + [Put(hero)];
      match backend
      case Ok(body) =>
        Log("updated hero id=" + IdText(hero.id));
        answer := Some(body);
      case Err(message) =>
        answer := HandleError("updateHero", None, message);
    }

    method AddHero(hero: Hero, backend: Outcome<Hero>) returns (added: Hero?)
      modifies this, messageService
      ensures requests == old(requests) + [Post(hero)]
      ensures added == AddHeroReply(backend).value
      ensures messageService.messages == old(messageService.messages) + AddHeroReply(backend).logged
    {
      requests := requests + [Post(hero)];
      match backend
      case Ok(newHero) =>
        Log("added hero w/ id=" + IdText(newHero.id));
        added := newHero;
      case Err(message) =>
        added := HandleError("addHero", null, message);
    }

    method DeleteHero(id: Option<int>, backend: Outcome<Hero?>) returns (answer: Hero?)
      modifies this, messageService
      ensures requests == old(requests) + [DeleteById(id)]
      ensures answer == DeleteHeroReply(id, backend).value
      ensures messageService.messages == old(messageService.messages) + DeleteHeroReply(id, backend).logged
    {
      requests := requests + [DeleteById(id)];
      match backend
      case Ok(body) =>
        Log("deleted hero id=" + IdText(id));
        answer := body;
      case Err(message) =>
        answer := HandleError("deleteHero", null, message);
    }

    method SearchHeroes(term: string, backend: Outcome<seq<Hero>>) returns (heroes: seq<Hero>)
      modifies this, messageService
      ensures SearchRequest(term) == None ==> requests == old(requests)
      ensures SearchRequest(term) != None ==> requests == old(requests) + [SearchRequest(term).value]
      ensures heroes == SearchHeroesReply(term, backend).value
      ensures messageService.messages == old(messageService.messages) + SearchHeroesReply(term, backend).logged
    {
      if Trim(term) == [] {
        return [];
      }
      requests := requests + [GetWhereName(term)];
      match backend
      case Ok(found) =>
        if |found| != 0 {
          Log("found heroes matching \"" + term + "\"");
        } else {
          Log("no heroes matching \"" + term + "\"");
        }
        heroes := found;
      case Err(message) =>
        heroes := HandleError("searchHeroes", [], message);
    }
  }
}
