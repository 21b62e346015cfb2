# Tour of Heroes: data service, message log and hero lists

A Dafny model of the logic in a small Angular "Tour of Heroes" application:

- **HeroService**, a failure-tolerant data-service layer. Each operation calls
  the backend over HTTP. On success it logs one line and passes the value
  through unchanged. On failure, `handleError` logs
  `<operation> failed: <message>` and yields a caller-chosen safe result, so
  the failure never reaches the caller. `searchHeroes` skips the call for a
  blank term. `getHeroNo404` takes the first element of the array it fetches.
- **MessageService**, the shared append-only log that every service call
  writes to, with `clear`.
- **HeroesComponent**, the editable list: load, add (trimmed, non-blank names
  only), delete by object identity.
- **DashboardComponent**, which shows `slice(1, 5)` of the fetched list.

How the model is laid out:

- The HTTP call is an input value: `Outcome<T>` is `Ok(value)` or `Err(message)`.
- TypeScript's `undefined` is `null` for hero-valued results (`Hero?`) and
  `Option` elsewhere.
- Each service operation has a pure `...Reply` function. It gives the value
  the operation yields and the lines it logs.
- The `HeroService` methods do the logging on the shared `MessageService`.
  Their `ensures` tie the new log and the result to those functions.
- A ghost field `requests` records the HTTP requests the service sends. It
  shows when no backend call is made.

Modules: `Wrappers` (Option), `Text` (JavaScript `trim`, blankness and number
rendering), `Messages`, `Service`, `HeroList`, `Dashboard`.

Behaviour of the code worth knowing:

- `updateHero` and `deleteHero` yield `undefined` on failure
  (`src/app/hero.service.ts:149`, `:181`).
- Each operation logs its own success line.
- A failed `addHero` yields `undefined`, and `HeroesComponent.add` pushes that
  value onto its list (`src/app/hero.service.ts:172`,
  `src/app/heroes/heroes.component.ts:63`).

## Model

| member | source | states |
|---|---|---|
| Text.Trim | src/app/heroes/heroes.component.ts:59 | `trim()` yields the contiguous middle of the string, with no whitespace at either end, after dropping only whitespace |
| Text.IsBlank | src/app/hero.service.ts:195 | `!s.trim()` holds exactly when every character is whitespace |
| Messages.MessageService.constructor | src/app/message.service.ts:8 | the log starts empty |
| Messages.MessageService.Add | src/app/message.service.ts:10-12 | the message becomes the last entry, the log grows by exactly one, earlier entries stay in place |
| Messages.MessageService.Clear | src/app/message.service.ts:14-16 | afterwards the log is empty |
| Messages.ReplayKeepsAddOrder | src/app/message.service.ts:8-16 | after any history of add/clear calls the log is exactly the messages added since the last clear, in call order (after the initial log if there was no clear) |
| Messages.ClearIdempotent | src/app/message.service.ts:14-16 | clearing twice gives the same log as clearing once, the empty one |
| Service.Hero.constructor | src/app/heroes/heroes.component.ts:61 | a hero built on the client carries the given id (absent for `{ name }`) and name |
| Service.Fallback | src/app/hero.service.ts:82-94 | a failure yields the caller's safe result and logs exactly `HeroService: <operation> failed: <message>` |
| Service.GetHeroesReply | src/app/hero.service.ts:61-67 | success yields the list unchanged and logs `fetched heroes`; failure yields `[]` and logs `getHeroes failed: <message>` |
| Service.GetHeroNo404Reply | src/app/hero.service.ts:104-115 | yields the first hero of the fetched array, logging `fetched hero id=<id>`; an empty array yields absent, logging `did not find hero id=<id>`; failure yields absent with the label `getHero id=<id>` |
| Service.GetHeroReply | src/app/hero.service.ts:122-133 | success yields the hero and logs `fetched hero id=<id>`; failure yields absent with the label `getHero id=<id>` |
| Service.UpdateHeroReply | src/app/hero.service.ts:146-151 | success yields the server's answer and logs `updated hero id=<hero.id>`; failure yields absent with the id-free label `updateHero` |
| Service.AddHeroReply | src/app/hero.service.ts:169-174 | success yields the server's new hero and logs `added hero w/ id=<its id>`; failure yields absent with the label `addHero` |
| Service.DeleteHeroReply | src/app/hero.service.ts:176-183 | success yields the server's answer and logs `deleted hero id=<id>`; failure yields absent with the label `deleteHero` |
| Service.SearchRequest | src/app/hero.service.ts:193-199 | a term that is all whitespace sends no request; any other term is sent as typed, untrimmed |
| Service.SearchHeroesReply | src/app/hero.service.ts:193-205 | a blank term yields `[]` and logs nothing; otherwise the matches are passed through, logged `found heroes matching "<term>"` when non-empty and `no heroes matching "<term>"` when empty; failure yields `[]` |
| Service.BlankSearchIgnoresBackend | src/app/hero.service.ts:195-198 | a blank search gives `[]` and no log line whatever the backend would have answered |
| Service.HeroService.constructor | src/app/hero.service.ts:33-36 | the service writes to the MessageService it is given and has sent nothing |
| Service.HeroService.Log | src/app/hero.service.ts:211-213 | appends exactly `HeroService: <message>` to the shared log |
| Service.HeroService.HandleError | src/app/hero.service.ts:82-94 | logs the failure line and yields the safe result, as `Fallback` states |
| Service.HeroService.GetHeroes | src/app/hero.service.ts:61-67 | sends `GET api/heroes`, yields and logs what `GetHeroesReply` states |
| Service.HeroService.GetHeroNo404 | src/app/hero.service.ts:104-115 | sends `GET ?id=<id>`, yields and logs what `GetHeroNo404Reply` states |
| Service.HeroService.GetHero | src/app/hero.service.ts:122-133 | sends `GET api/heroes/<id>`, yields and logs what `GetHeroReply` states |
| Service.HeroService.UpdateHero | src/app/hero.service.ts:146-151 | sends `PUT` with the hero, yields and logs what `UpdateHeroReply` states |
| Service.HeroService.AddHero | src/app/hero.service.ts:169-174 | sends `POST` with the hero, yields and logs what `AddHeroReply` states |
| Service.HeroService.DeleteHero | src/app/hero.service.ts:176-183 | sends `DELETE api/heroes/<id>`, yields and logs what `DeleteHeroReply` states |
| Service.HeroService.SearchHeroes | src/app/hero.service.ts:193-205 | sends nothing for a blank term and `GET ?name=<term>` otherwise, yields and logs what `SearchHeroesReply` states |
| HeroList.Without | src/app/heroes/heroes.component.ts:74 | the filtered list holds no entry identical to the hero and keeps every other entry |
| HeroList.WithoutAppend | src/app/heroes/heroes.component.ts:74 | filtering distributes over concatenation, so the kept entries stay in their relative order |
| HeroList.WithoutCounts | src/app/heroes/heroes.component.ts:74 | every reference to the hero is removed, every other entry keeps its multiplicity |
| HeroList.WithoutIdempotent | src/app/heroes/heroes.component.ts:73-76 | deleting the same hero twice leaves the list as deleting it once |
| HeroList.HeroesComponent.constructor | src/app/heroes/heroes.component.ts:29-32 | the list starts empty |
| HeroList.HeroesComponent.GetHeroes | src/app/heroes/heroes.component.ts:53-56 | the list is replaced by exactly what `getHeroes` yields, `[]` on failure |
| HeroList.HeroesComponent.Add | src/app/heroes/heroes.component.ts:58-65 | a blank name changes nothing and sends nothing; otherwise a fresh hero with the trimmed name and no id is posted and `addHero`'s result, absent on failure, is appended with the rest unchanged |
| HeroList.HeroesComponent.Delete | src/app/heroes/heroes.component.ts:73-76 | the list loses every entry identical to the hero whatever the backend answers, then `DELETE` is sent for the hero's id |
| Dashboard.RelativeIndex | src/app/dashboard/dashboard.component.ts:22 | a `slice` bound lands within the list, a non-negative bound clamped to its length |
| Dashboard.Slice | src/app/dashboard/dashboard.component.ts:22 | `slice(start, end)` has the clamped length and its element `i` is the list's element `start + i` |
| Dashboard.TopHeroes | src/app/dashboard/dashboard.component.ts:22 | the shown list has `max(0, min(n, 5) - 1)` entries, never more than 4, and entry `i` is fetched entry `i + 1` |
| Dashboard.EmptyOnFailure | src/app/dashboard/dashboard.component.ts:22 | a failed fetch, whose fallback is `[]`, shows an empty dashboard |
| Dashboard.DashboardComponent.constructor | src/app/dashboard/dashboard.component.ts:12-14 | the shown list starts empty |
| Dashboard.DashboardComponent.GetHeroes | src/app/dashboard/dashboard.component.ts:20-23 | the shown list is replaced wholesale by the top slice of what `getHeroes` yields |

## Left out

- The typeahead pipeline in `src/app/hero-search/hero-search.component.ts`
  (debounce, distinct-until-changed, switch-to-latest) is not modelled. It is
  timer and cancellation behaviour of a reactive-streams library.
- Asynchrony: each subscription callback runs at once with the given
  outcome. Interleavings of several pending requests are not modelled.
- HTTP transport, URL and query construction, and the JSON headers of
  `httpOptions` are not modelled. A request is recorded only as a `Request`
  value.
- `console.error` in `handleError` is not modelled. It is an operator-facing
  side channel.
- Text.IntToString: renders an id in decimal. It is a plain helper with no
  stated contract.
- Service.Fallback: the default label `'operation'` of `handleError` is not
  modelled, because every call in the service passes its own label.
- Service.AddHeroReply: the server's answer to `POST` is always a hero. A
  `null` answer, which would make the `tap` throw inside the pipe, is not
  modelled.
- Service.GetHeroNo404Reply: the fetched array is never `null`. A `null`
  body would make `heroes[0]` throw inside the pipe, and `catchError` would
  turn a successful call into the `getHero id=<id> failed: ...` fallback;
  that path is not modelled.
- Service.SearchHeroesReply: the fetched array is never `null`. A `null`
  body would make `x.length` throw in the `tap`, ending in the
  `searchHeroes failed: ...` fallback; that path is not modelled.
- Service.GetHeroesReply: the fetched array is never `null`. A `null` body
  passes the `tap` unchanged and then makes the dashboard's `slice` throw in
  its subscriber; that path is not modelled.
- Service.Hero.constructor: hero fields are constants. Nothing in these four
  files changes a hero's fields. The hero editor that does so is not part of
  this model.
- HeroList.HeroesComponent.Add: `push` mutates the array object that the
  service emitted. The model reassigns a sequence, so aliasing of that array
  is not captured.
- `ngOnInit` of both components is not modelled separately. It only calls
  `getHeroes`.
- `src/app/hero-detail/hero-detail.component.ts`, the routing and application
  modules, and `src/app/messages/messages.component.ts` are not part of this
  model. They are UI, router and dependency-injection glue.
