# Verification of the kunstwerk services

Four services (Beheer, Monitoring, Contract and Onderhoud) look after the same *kunstwerken* (bridges, locks, tunnels)
and talk to each other only through events. This project models what they do with those events and the computations
that cross a service boundary, and proves what the events are relied on for. Names follow the source, in Dutch.

`dafny verify dfyconfig.toml` checks everything.

## How it is built

- Code that updates state step by step is a class or a method with the same steps, branches and errors (the relays, the
  consumers, the unit of work, the tender, the contract, storing and traject, the use cases, the verdict loop, the JSON
  flattening). Each method is proved equal to a function of the old state (`NaBatch`, `NaLevering`, `NaGunning`, ...),
  and the theorems are about runs of those functions.
- A *run* is a sequence of states and steps. Steps are chosen freely: every theorem over runs covers every order of
  commands, refusals, republishing, redelivery, crashes and reloads that the step type allows.
- What a computation means is stated on its outcome, apart from how it is computed: a score by the equation it solves,
  an average by what it does to two lots of readings, an operator by its relation to the others, a stored aggregate by
  what is read back and by the commands that led to it.
- Errors are values (`Result`, `Option<Fout>`); a refused command is a step that leaves the data alone.
- Where the database promises no order (rows of equal age, child rows without `orderBy`), the order is a parameter.

| part | files |
|---|---|
| shared types and sequence facts | `Gedeeld`, `Dedup` |
| outbox, relays, wire | `Outbox`, `MonitoringRelay`, `Relayvolgorde`, `ContractRelay`, `Weigeringsvolgorde` |
| read models | `ContractIndex`, `ContractKeten`, `Kunstwerkprojecties` |
| tender, contract, award | `Contractwaarden`, `Aanbesteding`, `Emviwetten`, `Onderhoudscontract`, `Contractgrootboek`, `Gunning`, `Gunningsruns`, `Gunningsinhoud`, `Contractbron` |
| requirements and judgements | `Eisenoordeel`, `Beheer`, `Beheerruns`, `Pakketruns` |
| the report across three services | `MonitoringRapport`, `Rapportwaarden`, `Rapportketen`, `Kpi` |
| reading to maintenance | `Metingregistratie`, `Onderhoud`, `Onderhoudsbeheer`, `Onderhoudsruns`, `Trajectboek`, `Onderhoudslog`, `Incidentketen`, `Facturen` |

## Assumptions

- Each queue handles one message at a time, and an unacknowledged message comes back at the head of its queue. In
  Beheer's case any queued message may be next.
- Outbox timestamps do not decrease in append order. Where strict growth is needed the theorem says so, and
  `Relayvolgorde.VolgordePrecies` shows that it is needed: rows of one publish call share a timestamp.
- Clocks that date index rows grow. Generated ids are not blank, and new to every table, the processed events included.
- Consumers that share the table of processed events each mark ids of their own.
- Use cases run one after the other and finish, unless a step says where they are cut short.
- Handlers do not throw; a handler that throws loses its message.

## Findings

Where the code keeps less than it seems to promise, and exactly when it does keep it.

- Rows of equal age may be published in another order than they were appended, in the relay's own batch of fifty
  (`GelijkeTijdBreektVolgorde`). One batch keeps the order for every answer of the database exactly when its rows, and
  the first row behind it, differ in age (`BatchPrecies` says it for any limit); all continuations keep it exactly when
  no two rows share a timestamp (`VolgordePrecies`).
- In Contract's relay a refused publish is overtaken by later rows (`WeigeringBreektVolgorde`). The wire is in order
  exactly when no batch had a new row accepted after a refused new one (`BatchOrdePrecies`, `RelayOrdePrecies`); only
  marked rows are known to be accepted (`MarkeertPrecies`).
- Onderhoud plans one more traject for every crash between saving and marking, and one more for every heavy diagnosis
  that someone posts by hand with the id of the incident, since nothing looks for an earlier traject of the incident
  (`HandmatigeDiagnoseTeltMee`). `MetingWordtTraject` counts all of them; the incident has just the trajecten of
  its reading exactly when nobody made such a diagnosis (`AlleenUitMeting`).
- An event without an id is dropped by Monitoring and applied by the others (`LeegEventIdScheidt`). The three services
  agree on a kunstwerk exactly when its answer does not hang on such an event (`DrieProjecties`).
- A report is judged exactly when it is delivered, as far as the commit, while its kunstwerk is registered
  (`BeoordeeldPrecies`); one that comes earlier is dropped from the queue.
- An award with an invalid period leaves the tender awarded, without a contract and without any event, for good
  (`ContractAlsPeriodeGeldig`).
- Removing a losing bid changes the outcome exactly when price has weight and it was the only bid at the lowest price
  (`VerliezerWeg`, `VerliezerBeslistMee`).
- Saving a contract drops the currency of every amount (`ContractRondreis`), so a change that was refused for its
  currency is accepted after a reload (`HerladenMengtValuta`).
- For a requirement with `=`, readings that all miss the bound can average to it (`GelijkheidOpGemiddelde`).
- The detour of an invoice over euro is only sure to keep cents below 2^51 (`CentenBehoudenPrecies`).

## Model

| member | source | states |
|---|---|---|
| `MonitoringRelay.OutboxRelayWerker.VoegToe` | monitoring/src/Monitoring.Infrastructure/Messaging/OutboxEventPublisher.cs:10-28 | one publish call appends its rows, unsent, with one timestamp, and changes nothing else |
| `MonitoringRelay.OutboxRelayWerker.VerwerkBatch` | monitoring/src/Monitoring.Infrastructure/Messaging/OutboxRelay.cs:10-23 | publishes the whole batch before marking any row; a failure at call `n` leaves the first `n` rows on the wire and nothing marked |
| `MonitoringRelay.RelayVeilig` | monitoring/src/Monitoring.Infrastructure/Messaging/OutboxRelay.cs:10-23 | every run, failures anywhere: only outbox rows are sent, every marked row was sent, marking and sending go from old to new |
| `MonitoringRelay.RelayVolgorde` | monitoring/src/Monitoring.Infrastructure/Messaging/EfOutboxStore.cs:16-34 | with strictly growing timestamps the marked rows are a prefix of the outbox, and the first occurrences on the wire are a prefix of it in outbox order, not shorter |
| `MonitoringRelay.FoutloosKrimpt` | monitoring/src/Monitoring.Infrastructure/Messaging/OutboxRelay.cs:10-23 | an error-free batch shrinks the unsent set by exactly its return value, the smaller of the limit and what is open |
| `MonitoringRelay.FoutMarkeertNiets` | monitoring/src/Monitoring.Infrastructure/Messaging/OutboxRelay.cs:10-23 | a batch that throws leaves the table alone and only adds to the wire |
| `MonitoringRelay.Leegloop` | monitoring/src/Monitoring.Infrastructure/Messaging/OutboxRelay.cs:10-23 | error-free batches drain the outbox: after k of them k times the limit is gone, or everything |
| `MonitoringRelay.GelijkeTijdBreektVolgorde` | monitoring/src/Monitoring.Infrastructure/Messaging/OutboxRelay.cs:25-40 | for any two rows of one publish call: the relay's batch of 50 may send the later one first |
| `Relayvolgorde.BatchPrecies` | monitoring/src/Monitoring.Infrastructure/Messaging/EfOutboxStore.cs:16-34 | from an orderly state and for any limit: every answer the database may give to one error-free batch leaves the wire in outbox order if and only if each row of the batch is strictly older than its successor |
| `Relayvolgorde.VolgordePrecies` | monitoring/src/Monitoring.Infrastructure/Messaging/EfOutboxStore.cs:16-34 | for any limit: every continuation of an unsent outbox, failures included, keeps the wire in outbox order if and only if no two rows share a timestamp |
| `Outbox.WireIsPrefix` | monitoring/src/Monitoring.Infrastructure/Messaging/EfOutboxStore.cs:16-34 | a safe, ordered state with strict timestamps has a wire whose first occurrences are a prefix of the outbox |
| `Outbox.OpenKrimpt` | monitoring/src/Monitoring.Infrastructure/Messaging/EfOutboxStore.cs:16-34 | marking the rows the query answered with removes exactly those from the unsent set |
| `Outbox.KeuzeGeordend` | monitoring/src/Monitoring.Infrastructure/Messaging/EfOutboxStore.cs:16-24 | publishing any initial part of the query's answer keeps the wire safe and ordered from old to new |
| `Outbox.MarkeerVeilig` | monitoring/src/Monitoring.Infrastructure/Messaging/EfOutboxStore.cs:26-34 | marking rows that are on the wire keeps "marked implies sent" |
| `ContractRelay.OutboxRelay.VerwerkBatch` | contract/src/infrastructure/messaging/outbox-relay.ts:29-44 | publishes row by row, collects the accepted ids, marks those at the end; a throw marks nothing |
| `ContractRelay.MarkeertPrecies` | contract/src/infrastructure/messaging/outbox-relay.ts:29-44 | after a batch a row is marked exactly when it was, or when the batch finished and its publish returned true |
| `ContractRelay.BatchTelt` | contract/src/infrastructure/messaging/outbox-relay.ts:29-44 | a finished batch returns the number of its publish calls that returned true |
| `ContractRelay.RelayVeilig` | contract/src/infrastructure/messaging/outbox-relay.ts:29-44 | every run, with refusals and failures: marked rows were accepted, only outbox rows are on the wire |
| `ContractRelay.RelayGeordend` | contract/src/infrastructure/messaging/outbox-relay.ts:29-44 | without real refusals (a false return may still be buffered) the wire goes from old to new in every run |
| `ContractRelay.WeigeringBreektVolgorde` | contract/src/infrastructure/messaging/outbox-relay.ts:29-44 | a run in which a refused row is overtaken by the next one |
| `Weigeringsvolgorde.BatchOrdePrecies` | contract/src/infrastructure/messaging/outbox-relay.ts:29-44 | one batch from an ordered state, cut short anywhere: the wire is in outbox order if and only if no new row was accepted after a refused new one |
| `Weigeringsvolgorde.RelayOrdePrecies` | contract/src/infrastructure/messaging/outbox-relay.ts:29-44 | over every run with strictly growing times: the wire is in outbox order if and only if no batch so far let a new row overtake a refused one |
| `Dedup.EventDedup.MarkeerVerwerkt` | onderhoud/src/infrastructure/db/typeorm-read-models.ts:15-23 | the table of processed events gains exactly this id |
| `ContractIndex.ContractenReadModel.UpsertGegund` | onderhoud/src/infrastructure/db/typeorm-read-models.ts:59-68 | the granted contract's row is written and active; it is dated now, except that saving a row without changes may leave its date alone; other rows stay |
| `ContractIndex.ContractenReadModel.MarkeerAfgerond` | onderhoud/src/infrastructure/db/typeorm-read-models.ts:69-71 | an existing row becomes inactive and is dated now; an unknown contract changes nothing |
| `ContractIndex.ContractVerwerker.Verwerk` | onderhoud/src/infrastructure/messaging/contract-consumer.ts:14-31 | one delivery with its dedup check, effect and mark, cut short before the effect, between effect and mark, or after the mark |
| `ContractIndex.AlleenNieuweMetContract` | onderhoud/src/infrastructure/messaging/contract-consumer.ts:14-31 | a known event and one without a contract id change nothing, not even the marks; any other is marked once acknowledged |
| `ContractIndex.EffectRaaktEigenRij` | onderhoud/src/infrastructure/db/typeorm-read-models.ts:59-71 | an effect touches its own contract's row only, and dates it now unless it wrote what was there |
| `ContractIndex.EffectKlopt` | onderhoud/src/infrastructure/messaging/contract-consumer.ts:14-31 | applying the next event, for the first or the second time, makes the index agree with the log that far |
| `ContractIndex.RunInv` | onderhoud/src/infrastructure/messaging/contract-consumer.ts:14-31 | every run: index and marks agree with the acknowledged events, or are exactly one unacknowledged event ahead |
| `ContractIndex.KloptIsAntwoord` | onderhoud/src/infrastructure/db/typeorm-read-models.ts:52-58 | when the index agrees with a log, "newest active row for k" is the most recent grant for k not rounded off, or none |
| `ContractIndex.IndexKlopt` | onderhoud/src/infrastructure/messaging/contract-consumer.ts:14-31 | once the queue is drained, the current contract is the most recently granted one that is not rounded off, over any republishing, redelivery and crash, whether or not an unchanged save renews the date |
| `ContractIndex.NooitHerleefd` | onderhoud/src/infrastructure/messaging/contract-consumer.ts:14-31 | after a rounding off is acknowledged the contract is never active again, drained or not: no late duplicate revives it |
| `ContractKeten.GebondenDraadIsPrefix` | contract/src/infrastructure/messaging/outbox-relay.ts:29-44 | the first occurrences of messages that match the queue's binding are a prefix of the bound outbox rows |
| `ContractKeten.KetenKlopt` | onderhoud/src/infrastructure/messaging/contract-consumer.ts:14-35 | outbox, relay, binding, queue and consumer together: the drained index answers as a prefix of Contract's outbox, and as all of it once every row is marked and the wire consumed |
| `Kunstwerkprojecties.ContractVerwerker.Verwerk` | contract/src/infrastructure/messaging/beheer-kunstwerk-consumer.ts:22-33 | one delivery to Contract's kunstwerken table; a decommissioning inserts or updates a row and then calls the optional callback, before the mark |
| `Kunstwerkprojecties.MonitoringVerwerker.Verwerk` | monitoring/src/Monitoring.Infrastructure/Messaging/Consumers.cs:68-97 | one delivery to Monitoring's table; an empty event id or kunstwerk id is dropped, an unknown decommissioning ignored |
| `Kunstwerkprojecties.OnderhoudVerwerker.Verwerk` | onderhoud/src/infrastructure/messaging/beheer-consumer.ts:15-27 | one delivery to Onderhoud's table, which also receives requirement events |
| `Kunstwerkprojecties.EffectAntwoord` | contract/src/infrastructure/db/prisma-kunstwerken-read-model.ts:9-32 | in every service an event changes the in-use answer for its own kunstwerk only, and in the same way |
| `Kunstwerkprojecties.PogingenOnzichtbaar` | monitoring/src/Monitoring.Infrastructure/Messaging/Consumers.cs:20-97 | any number of interrupted deliveries leaves the table exactly as before the event or as after it |
| `Kunstwerkprojecties.BerichtIsLevering` | onderhoud/src/infrastructure/messaging/beheer-consumer.ts:15-27 | interrupted deliveries followed by an acknowledged one leave exactly what a single clean delivery leaves |
| `Kunstwerkprojecties.ProjectieVolgt` | onderhoud/src/infrastructure/db/typeorm-read-models.ts:32-42 | in every service, for every queue: a table answers "in use" exactly when the last event that took effect was a registration, and remembers exactly the ids that took effect; only the first event under an id does, an empty id included except in Monitoring |
| `Kunstwerkprojecties.KolommenVolgen` | contract/src/infrastructure/db/prisma-kunstwerken-read-model.ts:9-32 | in every service, for every queue: which kunstwerken are known, and their type and location, follow from the events that took effect; Contract keeps a column that the last registration leaves out |
| `Kunstwerkprojecties.DrieProjecties` | monitoring/src/Monitoring.Infrastructure/Messaging/Consumers.cs:38-97 | when the distinct kunstwerk events reached the three services in the same order, Contract and Onderhoud agree on every kunstwerk, and Monitoring agrees with them if and only if the answer does not hang on an event without an id |
| `Kunstwerkprojecties.DrieProjectiesMetId` | monitoring/src/Monitoring.Infrastructure/Messaging/Consumers.cs:38-97 | when every event has an id the three services agree on every kunstwerk |
| `Kunstwerkprojecties.LeegEventIdScheidt` | monitoring/src/Monitoring.Infrastructure/Messaging/Consumers.cs:76-78 | with an empty event id Monitoring parts from the other two |
| `Contractwaarden.SomVolgorde` | contract/src/infrastructure/db/prisma-onderhoudscontract-repository.ts:42-50 | increases minus decreases is the same in any row order |
| `Contractwaarden.VanEuroDichtstbij` | contract/src/domain/gedeeld/waarden.ts:39-40 | a price in euro becomes the nearest number of cents, halves upwards, and is refused only when that is negative |
| `Contractwaarden.EuroRondreis` | contract/src/domain/gedeeld/waarden.ts:39-40 | whole cents survive the way over euro and back |
| `Aanbesteding.Sorteer` | contract/src/domain/aanbesteding/aanbesteding.ts:78-83 | a stable sort on the score: highest first, equal scores in order of receipt, every bid once |
| `Aanbesteding.HoofdIsWinnaar` | contract/src/domain/aanbesteding/aanbesteding.ts:82-83 | the head of the sorted list is the first bid that no other bid outscores |
| `Aanbesteding.WinnaarIsUniek` | contract/src/domain/aanbesteding/aanbesteding.ts:82-83 | there is one such bid |
| `Aanbesteding.HoofdVan` | contract/src/domain/aanbesteding/aanbesteding.ts:73-95 | the bid at the head of the sort: with positive prices no bid scores higher and no earlier one as high; with a zero price and otherwise equal scores it is the first bid received |
| `Aanbesteding.Tender.OntvangInschrijving` | contract/src/domain/aanbesteding/aanbesteding.ts:59-71 | a published tender gains the bid at the end and one event; an awarded one refuses and stays as it is |
| `Aanbesteding.Tender.Gun` | contract/src/domain/aanbesteding/aanbesteding.ts:73-95 | a published tender with bids becomes awarded to the winner, with its score, price and one event; otherwise a refusal |
| `Emviwetten.GunPrecies` | contract/src/domain/aanbesteding/aanbesteding.ts:73-100 | the outcome of an award: (100 score - quality x quality weight) x price = 100 x lowest price x price weight for the winning bid, and no bid's solution of its own equation lies above it, nor an earlier bid's as high |
| `Emviwetten.ScoreVerschil` | contract/src/domain/aanbesteding/aanbesteding.ts:97-100 | the scores of two bids at one price differ by exactly their difference in quality times the quality weight over 100 |
| `Emviwetten.BesteKwaliteit` | contract/src/domain/aanbesteding/aanbesteding.ts:77-83 | when quality has weight, the winner has the best quality among the bids at its price, strictly better than any earlier one |
| `Emviwetten.WinnendeScoreBegrensd` | contract/src/domain/aanbesteding/aanbesteding.ts:73-100 | with quality in 0..100 the winning score is at least the price weight, at least every bid's weighted quality, and at most 100 |
| `Emviwetten.VolgordeMaaktNietUit` | contract/src/infrastructure/db/prisma-aanbesteding-repository.ts:38-46 | reloading the bids in another order keeps the winning score, and the new winner had that score before |
| `Emviwetten.WinnaarBlijft` | contract/src/domain/aanbesteding/aanbesteding.ts:77-83 | the winner still wins, with no lower score, after lowering its price to any positive value or raising its quality, also when it becomes the new lowest price and shifts all other scores |
| `Emviwetten.VerliezerWeg` | contract/src/domain/aanbesteding/aanbesteding.ts:77-83 | removing a losing bid leaves the winner and its score exactly when price has no weight or another bid is at the lowest price |
| `Emviwetten.HogereLaagste` | contract/src/domain/aanbesteding/aanbesteding.ts:77-83 | without the only lowest bid the winning score strictly rises |
| `Emviwetten.VerliezerBeslistMee` | contract/src/domain/aanbesteding/aanbesteding.ts:77-83 | three bids whose cheapest loses; without it another bid wins |
| `Onderhoudscontract.Contract.KeurWijzigingGoed` | contract/src/domain/onderhoudscontract/onderhoudscontract.ts:75-85 | an accepted change moves the value, is listed and emitted with its sign; a refused one changes nothing |
| `Onderhoudscontract.Contract.StelPrestatieverklaringOp` | contract/src/domain/onderhoudscontract/onderhoudscontract.ts:87-101 | accepted exactly on an active contract, within its period and with a score in 0..100 |
| `Onderhoudscontract.Contract.RondContractAf` | contract/src/domain/onderhoudscontract/onderhoudscontract.ts:103-110 | an active contract becomes rounded off with one event, once |
| `Onderhoudscontract.WijzigingGeaccepteerd` | contract/src/domain/onderhoudscontract/onderhoudscontract.ts:75-79 | a change is accepted exactly on an active contract, in its currency, and when the value does not become negative |
| `Onderhoudscontract.PrestatieGeaccepteerd` | contract/src/domain/onderhoudscontract/onderhoudscontract.ts:87-110 | a performance statement is accepted exactly on an active contract, with a period between the contract's first and last day and a score in 0..100; rounding off exactly on an active contract |
| `Onderhoudscontract.ContractRondreis` | contract/src/infrastructure/db/prisma-onderhoudscontract-repository.ts:11-62 | save and reload gives the contract back with all amounts in EUR: unchanged exactly when they all were |
| `Onderhoudscontract.RijLeest` | contract/src/infrastructure/db/prisma-onderhoudscontract-repository.ts:42-62 | a row reads exactly when its ids, period and amounts are possible; an empty tender id reads as none |
| `Contractgrootboek.HerlaadBehoudt` | contract/src/infrastructure/db/prisma-onderhoudscontract-repository.ts:42-62 | a reload in any row order never fails and keeps cents, status, and the changes and performance statements up to currency |
| `Contractgrootboek.WaardeBehouden` | contract/src/domain/onderhoudscontract/onderhoudscontract.ts:75-85 | at every point of every run with refusals and reloads: the listed changes are the accepted ones, the value is award price plus increases minus decreases, equals what the events add up to, and is not negative |
| `Contractgrootboek.PrestatiesBehouden` | contract/src/domain/onderhoudscontract/onderhoudscontract.ts:87-101 | at every point of every run the contract holds exactly the accepted performance statements, up to currency |
| `Contractgrootboek.EventZegtWatErStaat` | contract/src/domain/onderhoudscontract/onderhoudscontract.ts:75-110 | the event of an accepted command agrees with what the contract now holds: signed amount, reason, day, period and score |
| `Contractgrootboek.AfgerondBlijft` | contract/src/domain/onderhoudscontract/onderhoudscontract.ts:71-110 | once rounded off, value, changes and status stay and no event follows |
| `Contractgrootboek.ValutaBehouden` | contract/src/infrastructure/db/prisma-onderhoudscontract-repository.ts:42-56 | over a run the value keeps the award's currency exactly when that is EUR or nothing was reloaded |
| `Contractgrootboek.HerladenMengtValuta` | contract/src/infrastructure/db/prisma-onderhoudscontract-repository.ts:42-56 | any award in another currency refuses a change in EUR until it is reloaded, and then adds it |
| `Contractgrootboek.KpiWordtNooitGeweigerd` | contract/src/application/onderhoudscontract/stel-prestatieverklaring-op.ts:22-38 | with a score taken from any report's KPI only the status and the two ends of the period can refuse a statement |
| `Gunning.ContractService.PubliceerAanbesteding` | contract/src/application/aanbesteding/publiceer-aanbesteding.ts:19-30 | a valid command stores an open tender without bids and publishes it with its closing date and criteria; otherwise nothing changes |
| `Gunning.ContractService.OntvangInschrijving` | contract/src/application/aanbesteding/ontvang-inschrijving.ts:19-30 | load, round the price in euro to cents, add the bid, save, publish, or a refusal that changes nothing |
| `Gunning.ContractService.GunAanbesteding` | contract/src/application/aanbesteding/gun-aanbesteding.ts:28-55 | the tender is saved as awarded first; contract and events follow only when the period is valid |
| `Gunning.ContractService.VoerContractopdrachtUit` | contract/src/application/onderhoudscontract/keur-wijziging-goed.ts:21-33 | load, command, save, publish for change, performance statement and rounding off |
| `Gunningsinhoud.PublicatieGelezen` | contract/src/application/aanbesteding/publiceer-aanbesteding.ts:19-30 | a publication is accepted exactly with two non-negative weights that add up to 100; the stored tender and the event carry the command's data |
| `Gunningsinhoud.BodGelezen` | contract/src/application/aanbesteding/ontvang-inschrijving.ts:19-30 | a bid is accepted exactly on an open tender, from a named contractor, at a price that does not round below zero; the stored price is the nearest number of cents and the event carries it |
| `Gunningsinhoud.GunningGelezen` | contract/src/application/aanbesteding/gun-aanbesteding.ts:40-55 | the contract of a successful award is read back active, for the command's period and the tender's kunstwerk, and both events agree with it |
| `Gunningsinhoud.OpdrachtGelezen` | contract/src/application/onderhoudscontract/keur-wijziging-goed.ts:21-33 | an accepted contract command is read back as carried out, in EUR, with one event; any other leaves everything as it was |
| `Gunningsinhoud.ContractVanHoogsteScore` | contract/src/application/aanbesteding/gun-aanbesteding.ts:28-55 | in every run the contract of a tender with positive prices has the contractor and price of a bid whose score no other bid's exceeds, scores being solutions of the equation |
| `Gunningsruns.NieuwContractVoertUit` | contract/src/application/aanbesteding/gun-aanbesteding.ts:40-52 | the contract just created carries the tender's kunstwerk, a best bid's contractor and its price |
| `Gunningsruns.StapInv` | contract/src/application/aanbesteding/gun-aanbesteding.ts:28-55 | every step keeps tenders well formed, contracts tied to their awarded tender's best bid, and one contract per tender |
| `Gunningsruns.HoogstensEenContract` | contract/src/application/aanbesteding/gun-aanbesteding.ts:28-55 | every run: at most one contract per tender, with its kunstwerk, a best bid's contractor, and as value that bid's price plus its changes |
| `Gunningsruns.ContractAlsPeriodeGeldig` | contract/src/application/aanbesteding/gun-aanbesteding.ts:40-52 | an awarded tender was awarded by one step, and has a contract exactly when that command's end lay after its start |
| `Gunningsruns.InschrijvingenBevroren` | contract/src/domain/aanbesteding/aanbesteding.ts:59-71 | after the award a tender keeps its status and its bids, up to their order |
| `Contractbron.RunSluitend` | contract/src/infrastructure/db/prisma-outbox-event-publisher.ts:20-33 | every run: grants and roundings-off in the log match Contract's table, periods included, each contract granted once and first |
| `Contractbron.BronIsTabel` | contract/src/application/aanbesteding/gun-aanbesteding.ts:28-55 | the log of every run is one the index can follow, and the contract it calls current is an active contract of that kunstwerk in Contract's own table; none exactly when there is none |
| `Contractbron.BindingKiest` | onderhoud/src/infrastructure/messaging/contract-consumer.ts:34-35 | of Contract's seven event types the queue's binding lets through exactly the grants and the roundings-off |
| `Contractbron.BronVanLog` | contract/src/infrastructure/db/prisma-outbox-event-publisher.ts:20-33 | what reaches the queue of a written log is what the index reads of it, in order and under its own ids |
| `Contractbron.IndexVolgtTabel` | onderhoud/src/infrastructure/messaging/contract-consumer.ts:14-31 | end to end from Contract's use cases: with the log written to the outbox, every row marked and the bound messages worked off, the index answers from Contract's own table |
| `Eisenoordeel.WaardeVoorEis` | beheer/domain/services.py:82-88 | the value under the requirement's measure, else the one under its code, none exactly when the report names neither |
| `Eisenoordeel.Beoordeel` | beheer/domain/services.py:31-79 | the flag loop gives the minimum of the per-requirement results and one finding per requirement in order |
| `Eisenoordeel.UitspraakMonotoon` | beheer/domain/services.py:91-103 | on the verdict of one requirement: under an upper bound a lower value stays good, under a lower bound a higher one |
| `Eisenoordeel.OperatorenSplitsen` | beheer/domain/services.py:91-103 | exactly one of `<`, `=` and `>` is met by every value, `=` at the bound alone; `<=` and `>=` are the unions; negating value and bound swaps `<` and `>` |
| `Eisenoordeel.UitspraakAlgemeen` | beheer/domain/services.py:82-103 | the verdict on one requirement depends on its own value in the report and on nothing else in it |
| `Eisenoordeel.MinimumIsMinimum` | beheer/domain/services.py:31-79 | that minimum is below every per-requirement result and is one of them |
| `Eisenoordeel.OordeelBetekent` | beheer/domain/services.py:31-79 | Voldoet exactly when all requirements are met, VoldoetNiet exactly when one is violated |
| `Eisenoordeel.VolgordeMaaktNietUit` | beheer/domain/services.py:31-79 | the verdict does not depend on order or repetition of requirements |
| `Eisenoordeel.Samengevoegd` | beheer/domain/services.py:31-79 | the verdict of two packages together is the lower of their verdicts; the findings follow each other |
| `Eisenoordeel.EenBevindingPerEis` | beheer/domain/services.py:36-79 | each requirement has one finding, in order, with its code, operator, bound, unit, the value found and the verdict it would get alone |
| `Beheer.UnitOfWork.Commit` | beheer/infrastructure/uow.py:32-33 | the session's data become the committed data |
| `Beheer.UnitOfWork.Rollback` | beheer/infrastructure/uow.py:27-36 | the session forgets what it changed; the committed data stay |
| `Beheer.UnitOfWork.RegistreerKunstwerk` | beheer/application/use_cases.py:39-60 | registers a kunstwerk with its name, type and location under the given or a generated id; refuses a known id and blank fields without a change |
| `Pakketruns.RegistratieLegtVast` | beheer/application/use_cases.py:39-60 | a registration is accepted exactly for a new, non-blank id with a name and a location, and changes that kunstwerk only |
| `Pakketruns.StripBetekent` | beheer/domain/model.py:166-169 | the stored name is the one given without the white space around it |
| `Beheer.UnitOfWork.StelEisenVast` | beheer/application/use_cases.py:164-195 | marks the current package replaced and adds the next version; a refusal leaves the committed data unchanged although the old package was already marked |
| `Beheer.UnitOfWork.VerwerkRapport` | beheer/application/use_cases.py:248-293 | judgement and processed-event row are committed together, an earlier judgement is returned as it is |
| `Beheerruns.PakketVersies` | beheer/infrastructure/repositories.py:77-111 | every run: versions are exactly 1..n, version n is the only established package and the one the query returns |
| `Beheerruns.StelVastReeks` | beheer/application/use_cases.py:164-195 | an accepted command extends its own series by one and leaves every other series alone |
| `Pakketruns.StelVastAanvaard` | beheer/application/use_cases.py:164-195 | requirements are established exactly for a registered kunstwerk and a non-empty list; otherwise nothing changes |
| `Pakketruns.HuidigIsOpdracht` | beheer/application/use_cases.py:164-195 | after an accepted command the current package of its key has that command's requirements and strategy under the new id, the one before it is the old one replaced now, and earlier ones are untouched |
| `Pakketruns.VersiesVolgenOpdrachten` | beheer/application/use_cases.py:164-195 | every run: version i of a series carries the id, requirements and strategy of the i-th command accepted for its key |
| `Beheerruns.VersiesBlijven` | beheer/domain/model.py:254-319 | later states keep every package of an earlier state at its place, with its contents |
| `Beheerruns.HoogstensEenBeoordeling` | beheer/application/use_cases.py:248-293 | every run: one judgement per event at most, the processed events are the judged ones, the conflict branch is never taken |
| `Beheerruns.HerhalingGeeftHetzelfde` | beheer/application/use_cases.py:248-293 | a replay at any later time returns the first judgement and changes nothing, also after the requirements were replaced |
| `Beheerruns.BeoordelingVolgtPakket` | beheer/application/use_cases.py:268-293 | a fresh judgement is the verdict on the package that is current then |
| `Pakketruns.BeoordelingVolgtOpdracht` | beheer/application/use_cases.py:268-293 | every run: a fresh judgement is the verdict on the requirements of the last command accepted for its key, and carries the report's own data |
| `Pakketruns.RapportAanvaard` | beheer/application/use_cases.py:248-293 | a report is accepted exactly when its event was judged before, or when it is complete and about a registered kunstwerk; a refusal changes nothing |
| `Beheerruns.PreciesEenBeoordeling` | beheer/application/use_cases.py:248-293 | a report that is acknowledged only while its kunstwerk is registered has exactly one judgement once no copy of it is queued, whatever was republished, redelivered or cut short |
| `Beheerruns.BeoordeeldPrecies` | beheer/application/use_cases.py:248-293 | every run: an event has a judgement if and only if a report on it was delivered, as far as the commit, while its kunstwerk was registered |
| `MonitoringRapport.Grenzen` | monitoring/src/Monitoring.Domain/Rapporten/MonitoringRapport.cs:32-38 | smallest and largest reading are readings and bound all others |
| `MonitoringRapport.GemiddeldeTussen` | monitoring/src/Monitoring.Domain/Rapporten/MonitoringRapport.cs:32-38 | the average lies between any bounds of the readings |
| `MonitoringRapport.GemiddeldeSamen` | monitoring/src/Monitoring.Domain/Rapporten/MonitoringRapport.cs:32-38 | for two lots of readings reported together, number and number times average of each sensor's line are the sums of those of the two reports |
| `MonitoringRapport.GemiddeldeAlleen` | monitoring/src/Monitoring.Domain/Rapporten/MonitoringRapport.cs:32-38 | a single reading is smallest, largest and average of its sensor, and no other sensor has a line |
| `MonitoringRapport.OpenPlusOpgelost` | monitoring/src/Monitoring.Domain/Rapporten/MonitoringRapport.cs:46-51 | open and solved incidents add up to all incidents |
| `MonitoringRapport.ZwaarsteIsZwaarst` | monitoring/src/Monitoring.Domain/Rapporten/MonitoringRapport.cs:40-44 | the reported incident is the first that none exceeds in severity and then in creation time |
| `MonitoringRapport.NoemtErnstigste` | monitoring/src/Monitoring.Domain/Rapporten/MonitoringRapport.cs:40-44 | the incident a report names is open, a Kritiek one if there is one, else a Hoog one and so on, and among those the youngest |
| `MonitoringRapport.IncidentenSamen` | monitoring/src/Monitoring.Domain/Rapporten/MonitoringRapport.cs:46-51 | two lots of incidents in one report: the three counts add up and the ids follow each other |
| `MonitoringRapport.IncidentAlleen` | monitoring/src/Monitoring.Domain/Rapporten/MonitoringRapport.cs:46-51 | a single incident counts as solved when it is Opgelost and as open otherwise |
| `MonitoringRapport.RegelsInVolgorde` | monitoring/src/Monitoring.Domain/Rapporten/MonitoringRapport.cs:32-38 | the lines of a report follow the order of the sensor types |
| `MonitoringRapport.RapportVatSamen` | monitoring/src/Monitoring.Domain/Rapporten/MonitoringRapport.cs:29-56 | a report has a summary exactly for the sensors with readings, with their number, two of them as bounds of all and an average in between; it names an open incident that no open one exceeds, exactly when there is an open one |
| `Rapportwaarden.ExtractLijst` | beheer/infrastructure/rabbitmq_consumer.py:251-263 | the loop over a list of named numbers, later entries over earlier ones, with lower-case spelling for sensors |
| `Rapportwaarden.LaatsteWint` | beheer/infrastructure/rabbitmq_consumer.py:251-280 | the last named number of a list wins under its name, for a sensor also in lower case, and leaves other names alone; which field names it and which holds the number |
| `Rapportwaarden.LaatsteVeldWint` | beheer/infrastructure/rabbitmq_consumer.py:236-280 | the last field of a report wins: a number under its key, a named number under its name, of a list every name in it; other names stay and truth values add nothing |
| `Rapportwaarden.ExtractNumericValues` | beheer/infrastructure/rabbitmq_consumer.py:236-280 | the loop over a report's fields: numbers, named numbers and lists of them |
| `Rapportketen.RapportVlak` | beheer/infrastructure/rabbitmq_consumer.py:236-280 | flattening a report: every sensor with readings under both spellings with its average, the three counts, and nothing else |
| `Rapportketen.EisZietGemiddelde` | beheer/domain/services.py:82-103 | for a requirement on a sensor with readings Beheer compares exactly the average on that sensor's line of the report |
| `Rapportketen.OordeelOverServices` | beheer/domain/services.py:36-103 | all readings meet it: Voldoet; all violate it and the operator is not equality: VoldoetNiet |
| `Rapportketen.PakketOverServices` | beheer/domain/services.py:31-103 | the same for a whole package |
| `Rapportketen.GelijkheidOpGemiddelde` | beheer/domain/services.py:91-103 | two readings that both violate an equality while their average satisfies it |
| `Kpi.VertalingBetekent` | contract/src/infrastructure/messaging/monitoring-rapport-consumer.ts:24-40 | which property decides: the first of `kpiScore`, `score` and `beschikbaarheid` that is a number, clamped and rounded, else the share of solved incidents, 100 without any, and no score exactly when the counts are missing too |
| `Kpi.RapportScore` | contract/src/infrastructure/messaging/monitoring-rapport-consumer.ts:24-40 | of a report that Monitoring builds only the two counts matter |
| `Kpi.ScoreIsAandeel` | contract/src/infrastructure/messaging/monitoring-rapport-consumer.ts:24-40 | every report has a score: 100 without incidents, else within one half of the percentage solved |
| `Kpi.OplossenVerlaagtNooit` | contract/src/infrastructure/messaging/monitoring-rapport-consumer.ts:24-40 | solving an incident never lowers the score |
| `Metingregistratie.RegistreerMeting.Uitvoeren` | monitoring/src/Monitoring.Application/Metingen/RegistreerMeting.cs:22-53 | session count, reading, incident and outbox rows of one reading, or a refusal without a change |
| `Metingregistratie.MetingAanvaard` | monitoring/src/Monitoring.Application/Metingen/RegistreerMeting.cs:22-36 | a reading is accepted exactly when sensor and kunstwerk are known and allowed, the value is possible, and the running session is active |
| `Metingregistratie.MetingVastgelegd` | monitoring/src/Monitoring.Application/Metingen/RegistreerMeting.cs:33-39 | an accepted reading counts once, in the running session alone; row and event say the same |
| `Metingregistratie.IncidentVastgelegd` | monitoring/src/Monitoring.Application/Metingen/RegistreerMeting.cs:41-51 | from the threshold on there is one new incident; row and event agree, and name the severity and follow-up of the part of the range the reading lies in |
| `Metingregistratie.AnalyseGrenzen` | monitoring/src/Monitoring.Domain/Analyse/AnalyseService.cs:20-30 | an incident from the threshold on, and follow-up Onderhoud exactly from one and a half times the threshold on |
| `Metingregistratie.ErnstGrenzen` | monitoring/src/Monitoring.Domain/Analyse/AnalyseService.cs:20-30 | Laag, Middel, Hoog and Kritiek start at 1, 1.25, 1.5 and 2 times the threshold |
| `Metingregistratie.StandaardGrenzen` | monitoring/src/Monitoring.Domain/Analyse/AnalyseService.cs:7-13 | under the default thresholds an incident starts at 5, 100, 40 and 60 for the four sensors |
| `Onderhoud.Storing.KoppelAanOnderhoud` | onderhoud/src/domain/storing/storing.ts:49-53 | links a storing that is not settled to a traject, or refuses |
| `Onderhoud.Storing.HandelAf` | onderhoud/src/domain/storing/storing.ts:55-58 | settles a storing once, or refuses |
| `Onderhoud.StoringOvergangen` | onderhoud/src/domain/storing/storing.ts:49-58 | a storing that is not settled can be linked, again too, and settled, linked or not; a settled one refuses both |
| `Onderhoud.Traject.Start` | onderhoud/src/domain/onderhoud/onderhoud.ts:79-89 | starts a planned traject with one event and keeps earlier links unless new ones are given, or refuses |
| `Onderhoud.Traject.RegistreerInspectie` | onderhoud/src/domain/onderhoud/onderhoud.ts:91-94 | adds an inspection to a started traject, or refuses |
| `Onderhoud.Traject.RondAf` | onderhoud/src/domain/onderhoud/onderhoud.ts:96-108 | rounds off a started traject that has an approved inspection, with one event, or refuses |
| `Onderhoud.Traject.OntvangFactuur` | onderhoud/src/domain/onderhoud/onderhoud.ts:110-113 | books an invoice on a traject that is not merely planned, or refuses |
| `Onderhoud.Traject.KeurFactuurGoed` | onderhoud/src/domain/onderhoud/onderhoud.ts:115-120 | approves the invoice with this id on a rounded-off traject, or refuses |
| `Onderhoud.TrajectRondreis` | onderhoud/src/infrastructure/db/typeorm-onderhoud-repository.ts:11-84 | save and reload gives back the same traject |
| `Onderhoud.GeladenIsWelgevormd` | onderhoud/src/infrastructure/db/typeorm-onderhoud-repository.ts:49-84 | whatever reloads satisfies the value objects' rules |
| `Onderhoud.OntbrekendeKolommen` | onderhoud/src/infrastructure/db/typeorm-onderhoud-repository.ts:49-84 | a diagnosis row without severity reads as Laag, without finding as empty, and an empty id as none |
| `Onderhoudsbeheer.OnderhoudService.MeldStoring` | onderhoud/src/application/storing/meld-storing.ts:25-52 | saves the storing and, for the two higher severities, a planned traject linked both ways, and publishes the report; refuses an unknown kunstwerk under strict validation |
| `Onderhoudsbeheer.OnderhoudService.StelDiagnose` | onderhoud/src/application/diagnose/stel-diagnose.ts:20-38 | plans a traject exactly for the severities that require maintenance |
| `Onderhoudsbeheer.OnderhoudService.VoerUit` | onderhoud/src/application/onderhoud/start-onderhoud.ts:19-35 | load, act, save, publish for start, inspection, invoice and approval; under strict validation a start without a current contract is refused |
| `Onderhoudsbeheer.OnderhoudService.RondOnderhoudAf` | onderhoud/src/application/onderhoud/rond-onderhoud-af.ts:19-35 | saves the rounded-off traject, then settles its storing if that exists and is open, then publishes |
| `Onderhoudsruns.ActieBehoudt` | onderhoud/src/domain/onderhoud/onderhoud.ts:79-120 | no action other than rounding off changes the cause, kunstwerk or roundedness; approvals stay where they may be |
| `Onderhoudsruns.StapGekoppeld` | onderhoud/src/application/storing/meld-storing.ts:25-52 | every step keeps storingen and trajecten linked |
| `Onderhoudsruns.StoringGekoppeld` | onderhoud/src/application/onderhoud/rond-onderhoud-af.ts:19-35 | every run: Gemeld exactly when unlinked exactly when Laag or Middel; a linked storing's traject is on the same kunstwerk and points back; Afgehandeld exactly when it is Afgerond |
| `Onderhoudsruns.TrajectGekoppeld` | onderhoud/src/domain/onderhoud/onderhoud.ts:79-120 | every run: Afgerond implies an approved inspection, approved invoices only when Afgerond, a storing-caused traject is the one its storing names |
| `Onderhoudsruns.EenOpEen` | onderhoud/src/application/storing/meld-storing.ts:25-52 | linked storingen and their trajecten correspond one to one |
| `Trajectboek.StartGelezen` | onderhoud/src/application/onderhoud/start-onderhoud.ts:19-35 | a start is accepted exactly on a planned traject with a current contract or under lenient validation; read back, the traject has its date and that contract |
| `Trajectboek.PostGelezen` | onderhoud/src/domain/onderhoud/onderhoud.ts:91-113 | an inspection is accepted exactly on a started traject, an invoice exactly beyond planned at a non-negative amount; read back it is the last one |
| `Trajectboek.AfrondingGelezen` | onderhoud/src/application/onderhoud/rond-onderhoud-af.ts:19-35 | rounding off is accepted exactly on a started traject with an approved inspection; read back it has result and day, and its storing is settled |
| `Trajectboek.GoedkeuringGelezen` | onderhoud/src/domain/onderhoud/onderhoud.ts:115-120 | an approval is accepted exactly on a rounded-off traject; read back, the first invoice with the id, and no other, is approved at the same amount |
| `Trajectboek.GestartDoor` | onderhoud/src/domain/onderhoud/onderhoud.ts:79-89 | every run: a traject beyond planned was started by one step and keeps that step's date and contract whatever followed; a planned one has nothing filled in |
| `Trajectboek.AfgerondDoor` | onderhoud/src/domain/onderhoud/onderhoud.ts:96-108 | every run: a rounded-off traject was rounded off by one step and keeps that step's result and date |
| `Trajectboek.BoekenKloppen` | onderhoud/src/infrastructure/db/typeorm-onderhoud-repository.ts:11-84 | every run, rows in any order: a traject holds exactly the invoices and inspections accepted for it, each as received |
| `Onderhoudslog.LogIsTabel` | onderhoud/src/application/onderhoud/rond-onderhoud-af.ts:19-35 | every run: each stored storing was announced exactly once and no other was; the start and the end of a traject were announced exactly once if they came about, and not otherwise |
| `Onderhoudslog.LogBlijftKloppen` | onderhoud/src/domain/onderhoud/onderhoud.ts:79-108 | every run: every event ever published still says what is stored of its storing or traject |
| `Onderhoudslog.MeldingGelezen` | onderhoud/src/application/storing/meld-storing.ts:25-52 | a report is accepted exactly when allowed and complete; the storing is read back as reported, with a planned traject naming it for the two higher severities |
| `Onderhoudslog.DiagnoseGelezen` | onderhoud/src/application/diagnose/stel-diagnose.ts:20-38 | a diagnosis plans a traject exactly for the two higher severities; read back it has the kunstwerk, incident and finding given |
| `Incidentketen.MonitoringIncidentVerwerker.Verwerk` | onderhoud/src/infrastructure/messaging/monitoring-incident-consumer.ts:10-22 | check, diagnosis, mark; cut short at any point |
| `Incidentketen.LeverEffect` | onderhoud/src/infrastructure/messaging/monitoring-incident-consumer.ts:10-22 | a delivery that reaches the diagnosis plans one traject for a heavy incident and none otherwise |
| `Incidentketen.GeenDiagnose` | onderhoud/src/infrastructure/messaging/monitoring-incident-consumer.ts:10-22 | which events leave tables and marks alone, and which are marked without a traject |
| `Incidentketen.RunInv` | onderhoud/src/infrastructure/messaging/monitoring-incident-consumer.ts:10-22 | every run, diagnoses by hand included: each incident has as many trajecten as deliveries that were completed or crashed on it, plus the heavy diagnoses by hand that name it |
| `Incidentketen.HoogstensEenPlusCrashes` | onderhoud/src/infrastructure/messaging/monitoring-incident-consumer.ts:10-22 | at any moment, beyond the trajecten planned by hand: at most one plus one per crash, and none for the lower severities |
| `Incidentketen.MetingWordtTraject` | monitoring/src/Monitoring.Application/Metingen/RegistreerMeting.cs:22-53 | end to end: a reading has an incident exactly from the threshold on, and after draining exactly 1 + crashes trajecten from one and a half times it on and none below, plus one for every heavy diagnosis by hand that names it |
| `Incidentketen.AlleenUitMeting` | onderhoud/src/application/diagnose/stel-diagnose.ts:20-38 | the incident has just the trajecten of its reading if and only if nobody made a heavy diagnosis by hand that names it |
| `Incidentketen.HandmatigeDiagnoseTeltMee` | onderhoud/src/interface/http/onderhoud.controller.ts:42-47 | for any thresholds: a heavy reading, one clean delivery and one heavy diagnosis by hand that names its incident leave two trajecten |
| `Facturen.CentenBehoudenPrecies` | onderhoud/src/domain/gedeeld/waarden.ts:71-85 | with relative error at most 2^-53 per operation (section 4.3.1 of IEEE 754-2019) cents divided by 100 and multiplied by 100 round to themselves exactly below 2^51 |
| `Facturen.FactuurOpDeCent` | onderhoud/src/infrastructure/acl/aannemer-factuur-vertaler.ts:19-27 | an external invoice below 2^51 cents is booked exactly when in EUR, on a started traject and not negative, and then for exactly net plus VAT cents |
| `Facturen.BtwTeltMee` | onderhoud/src/infrastructure/acl/aannemer-factuur-vertaler.ts:19-27 | d cents more VAT on the same invoice is booked as exactly d cents more |

## Left out

- Atomicity of saving an aggregate and appending its events: they are separate writes. The protocol starts at the appended row, and `Gunning` runs contain finished use cases only.
- Delivery of Beheer's own events, which are published after the commit without an outbox, and status changes by PATCH; the projections are compared with each other and with the events, not with Beheer's status.
- Interleaving of two use cases on the same data: the code takes no lock, so runs are sequential.
- Which KPI is the latest one: the theorem holds for the KPI of any report.
- Contract's column types (32-bit integers, whole scores): amounts are unbounded integers and scores are reals.
- Tender rows: a stored tender is modelled as the tender itself; of its reload only the order of the bids is modelled. Bids are always in EUR.
- Aanbesteding.HoofdVan: with a price of zero among positive ones the code divides zero by zero, its comparator returns NaN and the head of the sort is unspecified unless all other scores are equal; then a parameter chooses the bid. A score that is NaN is None. The laws in `Emviwetten` require positive prices.
- The library's own sort: `Sorteer` is a stable insertion sort in its place.
- Floating point except for the cents of an invoice: readings, thresholds, averages and scores are reals, and NaN and infinite readings are not modelled.
- Facturen.CentenBehoudenPrecies: speaks of every pair of operations within the error bound, not of binary64 itself, which above 2^51 may still round well for particular amounts.
- Unicode: blank tests and lower case are those of ASCII. How Python writes a non-string name with `str()` is a parameter.
- Beheer.UnitOfWork.RegistreerKunstwerk: without the fields that nothing here reads (manager, renovation year, inspection date, audit dates).
- Eisenoordeel.Samengevoegd: requires two non-empty packages; an empty one cannot be established and would count as NietTeBeoordelen.
- Kunstwerkprojecties.DrieProjecties: requires that no requirement event shares its id with a kunstwerk event. Contract's optional callback is recorded as a call; it does not throw.
- Schedules, the session life cycle in Monitoring, network reports, what the callback for decommissioned kunstwerken does, and Contract's requirements read model: they would add only single-step members.
- HTTP routes, transfer objects, authentication, configuration, health checks, migrations, the broker and ORM libraries and all front ends.
