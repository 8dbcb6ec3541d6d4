# CRM funnel stores, modelled in Dafny

This project models the in-memory core of a Go CRM backend. That core is three things:

- the client store of `internal/cliente`: a slice of clients, IDs given out as "length + 1", and a rule that no two clients share a CNPJ;
- the deal store of `internal/negocio`: the same slice-table discipline without a uniqueness rule, plus single-field updates of `Status` and `Tarefa`. The package also contains an older copy of it, `respository.go`;
- the sales-funnel gate in the deal handlers: create and full update reject a `Status` that is not one of the eleven `FunilOpcoes`, and the status-only endpoint does not check.

Each store is a `class` whose table is a `seq` field. The methods replay the Go `for range` search loops, and each method's postcondition equates its result and new table with a pure function of the old table (`AdicionarEm`, `AtualizarEm`, ...). Lemmas about those functions state what the code promises and what it fails to promise:

- IDs can be reused after a delete;
- CNPJ uniqueness is guaranteed to survive an update only when the target ID is unique, and it can be broken from an empty store using only the store's own operations;
- the status invariant that create and update keep is broken by the status endpoint.

Files: `resultado.dfy` (Option/Result), `cliente.dfy`, `negocio_model.dfy`, `negocio_repositorio.dfy`, `negocio_respositorio.dfy`, `negocio_handler.dfy`.

`respository.go` declares the same identifiers as `repository.go` in the same package, so Go would refuse the package as it stands. Here it is the module `NegocioRespositorio`. Its class is specified by the same table functions as the current store. `MesmoComportamento` runs one operation on both stores from equal tables and proves that they return the same result and are left with equal tables.

## Model

| member | source | states |
|---|---|---|
| `Cliente.PrimeiroIndice` | internal/cliente/repository.go:36-41 | index of the first client with the ID: in range, that entry has the ID, no earlier entry has it; none exactly when no entry has it |
| `Cliente.Repositorio.constructor` | internal/cliente/repository.go:11-15 | a new store holds no clients |
| `Cliente.Repositorio.Adicionar` | internal/cliente/repository.go:18-27 | result and new table equal `AdicionarEm` of the old table: CNPJ scan, then ID = old length + 1 and append |
| `Cliente.Repositorio.Listar` | internal/cliente/repository.go:30-32 | returns the whole table |
| `Cliente.Repositorio.ObterPorID` | internal/cliente/repository.go:35-42 | found exactly when some client has the ID, and then it is the first such client; otherwise "Cliente not found"; changes nothing |
| `Cliente.Repositorio.Atualizar` | internal/cliente/repository.go:45-60 | result and new table equal `AtualizarEm`: ID lookup, then the nested CNPJ-conflict scan, then replacement at the first match |
| `Cliente.Repositorio.Deletar` | internal/cliente/repository.go:63-71 | result and new table equal `DeletarEm`: the first match is spliced out |
| `Cliente.AdicionarResultado` | internal/cliente/repository.go:19-26 | fails exactly when some stored client has the CNPJ, with "CNPJ already exists" and the table unchanged; otherwise returns `c` with ID old length + 1, appended at the end, length plus one |
| `Cliente.AdicionarPreservaCnpjsDistintos` | internal/cliente/repository.go:19-26 | pairwise-distinct CNPJs stay pairwise distinct after an insertion |
| `Cliente.AdicionarPreservaIdsSequenciais` | internal/cliente/repository.go:24-25 | in a table built only by insertions (entry k has ID k+1) the new ID is fresh and the shape is kept |
| `Cliente.IdsSequenciaisSaoUnicos` | internal/cliente/repository.go:24-25 | such a table never holds an ID twice |
| `Cliente.DeletarEntaoAdicionarRepeteId` | internal/cliente/repository.go:24-25 | IDs are length + 1, not max + 1: deleting any entry but the last (whose ID is the length) and then adding gives two live clients the same ID |
| `Cliente.ObterResultado` | internal/cliente/repository.go:35-42 | lookup fails exactly when no client has the ID, with the error whose text is "Cliente not found"; otherwise it returns an entry with the ID that no earlier entry shares |
| `Cliente.AtualizarResultado` | internal/cliente/repository.go:45-60 | unknown ID: "Cliente not found", table unchanged; another ID holds the CNPJ: "CNPJ already exists", table unchanged; otherwise only the first match is replaced, by `updated` with the ID forced, and the length and all other entries are unchanged |
| `Cliente.AtualizarMantendoCnpj` | internal/cliente/repository.go:49-51 | with distinct CNPJs, keeping the client's own CNPJ is not a conflict and the update succeeds |
| `Cliente.AtualizarPreservaCnpjsDistintos` | internal/cliente/repository.go:49-55 | an update keeps CNPJs distinct when at most one client holds the target ID |
| `Cliente.AtualizarComIdRepetidoDuplicaCnpj` | internal/cliente/repository.go:49-51 | with two clients sharing the target ID, an update succeeds and leaves two equal CNPJs: the conflict scan skips every entry with that ID |
| `Cliente.CnpjDuplicadoAlcancavel` | internal/cliente/repository.go:18-71 | from an empty store, add, add, delete ID 1, add (ID 2 again) and update ID 2 all succeed, and two clients end up with one CNPJ |
| `Cliente.DeletarResultado` | internal/cliente/repository.go:63-71 | unknown ID: "Cliente not found", table unchanged; otherwise the length drops by one, entries before the first match are kept and later ones shift down one place in order |
| `Cliente.DeletarPreservaCnpjsDistintos` | internal/cliente/repository.go:64-67 | a deletion keeps CNPJs distinct |
| `Negocio.FunilOpcoesDistintas` | internal/negocio/model.go:16-28 | the funnel list has eleven entries, pairwise distinct |
| `Negocio.VazioForaDoFunil` | internal/negocio/model.go:16-28 | the empty string, a zero-valued `Status`, is not a funnel status |
| `NegocioRepositorio.PrimeiroIndice` | internal/negocio/repository.go:31-36 | index of the first deal with the ID, characterised as for clients |
| `NegocioRepositorio.Repositorio.constructor` | internal/negocio/repository.go:11-15 | a new store holds no deals |
| `NegocioRepositorio.Repositorio.Adicionar` | internal/negocio/repository.go:18-22 | result and new table equal `AdicionarEm`: ID = old length + 1, appended |
| `NegocioRepositorio.Repositorio.Listar` | internal/negocio/repository.go:25-27 | returns the whole table |
| `NegocioRepositorio.Repositorio.ObterPorID` | internal/negocio/repository.go:30-37 | found exactly when some deal has the ID, and then it is the first such deal; otherwise "Negocio not found"; changes nothing |
| `NegocioRepositorio.Repositorio.Atualizar` | internal/negocio/repository.go:40-49 | result and new table equal `AtualizarEm`: whole-record replacement at the first match |
| `NegocioRepositorio.Repositorio.AtualizarStatus` | internal/negocio/repository.go:52-60 | result and new table equal `AtualizarStatusEm`: in-place write of `Status` at the first match |
| `NegocioRepositorio.Repositorio.AtualizarTarefa` | internal/negocio/repository.go:63-71 | result and new table equal `AtualizarTarefaEm`: in-place write of `Tarefa` at the first match |
| `NegocioRepositorio.Repositorio.Deletar` | internal/negocio/repository.go:74-82 | result and new table equal `DeletarEm`: the first match is spliced out |
| `NegocioRepositorio.AdicionarNuncaFalha` | internal/negocio/repository.go:18-22 | insertion always succeeds, returns the record with ID old length + 1 and all other fields as given, and appends exactly it |
| `NegocioRepositorio.MesmosIdsMesmoIndice` | internal/negocio/repository.go:31-36 | the first match depends only on the IDs, position by position |
| `NegocioRepositorio.IdDesconhecido` | internal/negocio/repository.go:30-82 | for an ID no deal has, lookup, update, both single-field updates and delete all report "Negocio not found" and leave the table unchanged |
| `NegocioRepositorio.ObterResultado` | internal/negocio/repository.go:30-37 | lookup fails exactly when no deal has the ID; otherwise it returns an entry with the ID that no earlier entry shares |
| `NegocioRepositorio.AtualizarResultado` | internal/negocio/repository.go:40-49 | on a known ID only the first match is replaced, by `updated` with the ID forced, which is also returned; length and other entries unchanged |
| `NegocioRepositorio.AtualizarStatusResultado` | internal/negocio/repository.go:52-60 | on a known ID only the `Status` of the first match changes; every other field and entry is unchanged; the updated entry is returned |
| `NegocioRepositorio.AtualizarTarefaResultado` | internal/negocio/repository.go:63-71 | on a known ID only the `Tarefa` of the first match changes; every other field and entry is unchanged; the updated entry is returned |
| `NegocioRepositorio.DeletarResultado` | internal/negocio/repository.go:74-82 | on a known ID the length drops by one and the other entries keep their order |
| `NegocioRepositorio.ObterAposAtualizar` | internal/negocio/repository.go:40-49 | on a known ID, reading the ID back after a full update gives the record the update returned |
| `NegocioRepositorio.ObterAposAtualizarStatus` | internal/negocio/repository.go:52-60 | on a known ID, reading the ID back after a status update gives the updated deal |
| `NegocioRepositorio.ObterAposAtualizarTarefa` | internal/negocio/repository.go:63-71 | on a known ID, reading the ID back after a task update gives the updated deal |
| `NegocioRepositorio.AtualizarStatusIdempotente` | internal/negocio/repository.go:52-60 | writing the same status twice equals writing it once, in result and table |
| `NegocioRepositorio.StatusETarefaComutam` | internal/negocio/repository.go:52-71 | the status and task updates of one ID commute on the table |
| `NegocioRepositorio.ObterAposAdicionar` | internal/negocio/repository.go:18-37 | add then look up the returned ID gives the added deal, provided no stored deal already has ID length + 1 |
| `NegocioRepositorio.ObterAposAdicionarPodeDevolverOutro` | internal/negocio/repository.go:18-82 | after add, add, delete ID 1, add, the new deal shares ID 2 with an older one and looking up ID 2 returns the older deal |
| `NegocioRespositorio.Repositorio.constructor` | internal/negocio/respository.go:10-15 | a new older-style store holds no deals |
| `NegocioRespositorio.Repositorio.Adicionar` | internal/negocio/respository.go:18-22 | same result and table as the current store's insertion |
| `NegocioRespositorio.Repositorio.Listar` | internal/negocio/respository.go:25-27 | returns the whole table |
| `NegocioRespositorio.Repositorio.ObterPorID` | internal/negocio/respository.go:30-37 | same result as the current store's lookup; fails exactly when no deal has the ID |
| `NegocioRespositorio.Repositorio.Atualizar` | internal/negocio/respository.go:40-49 | same result and table as the current store's full update |
| `NegocioRespositorio.Repositorio.Deletar` | internal/negocio/respository.go:52-60 | same result and table as the current store's delete |
| `NegocioRespositorio.MesmoComportamento` | internal/negocio/respository.go:18-60 | from equal tables, any of the five operations gives equal results on both stores and leaves equal tables |
| `NegocioHandler.ValidarStatus` | internal/negocio/handler.go:54-60 | the flag loop ends true exactly when some entry of `FunilOpcoes` equals the status (the same loop is at lines 108-114) |
| `NegocioHandler.Handler.constructor` | internal/negocio/handler.go:16-18 | the handler is bound to the given store |
| `NegocioHandler.Handler.ListarNegocios` | internal/negocio/handler.go:74-76 | 200 with the whole table |
| `NegocioHandler.Handler.ObterNegocio` | internal/negocio/handler.go:86-92 | 200 exactly when some deal has the ID, with the first match; otherwise 404 "Negocio not found" |
| `NegocioHandler.Handler.CriarNegocio` | internal/negocio/handler.go:54-70 | response and new table equal `CriarNegocioEm`: the gate, then insertion |
| `NegocioHandler.Handler.AtualizarNegocio` | internal/negocio/handler.go:108-124 | response and new table equal `AtualizarNegocioEm`: the gate, then replacement |
| `NegocioHandler.Handler.AtualizarStatusHandler` | internal/negocio/handler.go:37-43 | response and new table equal `AtualizarStatusHandlerEm`: status write with no gate |
| `NegocioHandler.Handler.AtualizarTarefaHandler` | internal/negocio/handler.go:145-151 | response and new table equal `AtualizarTarefaHandlerEm` |
| `NegocioHandler.Handler.DeletarNegocio` | internal/negocio/handler.go:162-167 | response and new table equal `DeletarNegocioEm` |
| `NegocioHandler.CriarResultado` | internal/negocio/handler.go:61-70 | create answers 201 exactly when the status is in the funnel, with the deal stored under ID length + 1 and appended; otherwise 400 "Status de funil inválido" and the table is untouched |
| `NegocioHandler.AtualizarValidaAntesDeBuscar` | internal/negocio/handler.go:107-118 | an invalid status gives 400 and leaves the table alone for every ID, unknown ones included |
| `NegocioHandler.AtualizarComStatusValido` | internal/negocio/handler.go:119-124 | with a valid status: 404 "Negocio not found" and no change for an unknown ID; otherwise 200 with the replaced deal, written at the first match |
| `NegocioHandler.TarefaEDeletarResultado` | internal/negocio/handler.go:145-167 | task update and delete give 404 and no change for an unknown ID; a delete that finds the deal gives 204 and a task update 200 |
| `NegocioHandler.PortaoPreservaStatus` | internal/negocio/handler.go:54-167 | create, full update, task update and delete keep "every stored status is in `FunilOpcoes`" |
| `NegocioHandler.AtualizarStatusSemPortao` | internal/negocio/handler.go:37-43 | on a known ID the status endpoint answers 200 for any status and stores it, so a status outside the funnel breaks that invariant |
| `NegocioHandler.StatusForaDoFunilAlcancavel` | internal/negocio/handler.go:20-70 | from an empty table, create with "Proposta" then set status "" through the status endpoint: both succeed and the table holds a status outside the funnel |

## Left out

- GORM-backed stores of the other packages (empresa, negociacao, historicoetapa, tarefa, contato, anotacao, quiver): every method is a single call into GORM, whose behaviour is not part of this model. That includes the stage-history table and stage transitions, which internal/negociacao/repository.go does not implement: its `AtualizarFunil` (lines 88-98) only writes `etapa_funil_vendas` and never creates a `HistoricoEtapa`.
- HTTP plumbing: JSON binding, `strconv.Atoi` on the path parameter and their 400 answers ("ID inválido", "Invalid ID", "Dados inválidos", binding errors). Each handler method takes the already-parsed ID and payload.
- The cliente HTTP handler and `cmd/server/main.go` (configuration, database connection, routes): not part of this model.
- `ObterPorID` (both stores): Go returns a pointer into the slice, through which a caller could change the stored record. The model returns a copy of the record, so that aliasing is not captured.
- `Listar` (both stores) and `ListarNegocios`: Go returns the slice itself, which shares its backing array with the store, and the in-place splice of `Deletar` can later change what a caller holds. The model returns an immutable sequence.
- Integer width: Go's `int` is 64-bit. IDs are modelled as unbounded integers, because "length + 1" cannot overflow for any slice that fits in memory.
- `FunilOpcoes` is an exported package-level `var` slice in Go, so another package could reassign or mutate it. Nothing in the source writes to it, and the model takes it as a constant.
- Concurrency: the Go stores take no locks. The model treats each call as atomic.
