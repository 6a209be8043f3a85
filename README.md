# Personal-finance ledger store, modelled in Dafny

The repository is a personal-finance ledger over MySQL. It keeps users, their
accounts, categories of income and expense, transactions, goals,
investments, and two audit tables. Two layers of code change that store:

- the service functions of `database/functions.py`: create a user, an account
  or a category, add a transaction, compute a user's balance;
- the SQL held as strings in `database/procedures_triggers.py`:
  - three triggers: the sign rule on inserted transactions, the e-mail change
    log, and the backup of deleted accounts;
  - four stored procedures: add to a goal, total the expenses of a category in
    a month, list an account's statement newest first, and record a transfer.

The schema in `database/models.py` is written as invariants: primary keys,
UNIQUE columns and non-null foreign keys with no cascade. Every write of
the store is shown to preserve them.

Layout:

- `modelos.dfy`:
  - module `Opcoes`: the Option datatype.
  - module `Modelos`:
    - one datatype per table row, and `Tabelas`, the whole database as one value;
    - the schema constraints as predicates (`ChavesPrimarias`, `Unicidade`,
      `ChavesEstrangeiras`) and the invariant `Integro`;
    - auto-increment ids and the lookups by key.
- `texto.dfy`, module `Texto`: Python's `str.split` and `str.join`, used to cut
  the object name out of a CREATE statement.
- `procedimentos.dfy`, module `Procedimentos`:
  - the insert trigger's sign rule;
  - the goal update as a function on the goals table;
  - the two SELECT procedures;
  - the category and amount choices of the transfer;
  - the name extraction.
- `funcoes.dfy`, module `Funcoes`: the date choice of `adicionar_transacao` and
  the balance of `calcular_balanco_usuario`, with lemmas on how each write
  moves it.
- `invariantes.dfy`, module `Invariantes`: one lemma per kind of write, showing
  that it keeps `Integro`.
- `sessao.dfy`, module `Sessao`: class `Banco`, which holds one `seq` field per
  table. Its methods are the writes, each with the triggers it fires. Module
  methods replay the seeding sequence.

Representation choices:

- **Amounts** are `int` hundredths of the currency unit.
- **Ids** are allocated as one above the largest id in the table. For accounts,
  the ids in `contas_backup` count too, which stands for InnoDB never reusing
  an auto-increment value.
- **The category kind** is `Despesa | Receita | Outro(text)`: the column is free
  text (database/models.py:56).
- **A failed write** returns `None` or `false` and leaves every table as it
  was. This covers a rolled-back session and a statement refused by a
  constraint. The one exception is the transfer procedure, which runs two
  INSERTs with no error handler: when the credit is refused, the debit
  stays stored.
- **The clock, date parsing and password hashing** are parameters:
  - `hoje` stands for `date.today()` and `CURDATE()`;
  - `agora` stands for `CURRENT_TIMESTAMP`;
  - `interpretar` stands for `strptime`;
  - `hashSenha` stands for `hash_senha`.
- **SQL NULL** appears only where it changes a result on a path the program's
  own code can produce:
  - a missing category reads as an unknown kind, so the trigger leaves the
    amount alone;
  - a grouped SUM over no rows gives no row;
  - `SUM` over no rows followed by `or 0.0` gives 0.

Points where the code is followed as written:

- `criar_categoria` accepts any kind text; nothing rejects a kind other than
  the two words.
- The transfer procedure falls back to category ids 1 and 2 when the named
  categories are missing.
- The transfer procedure has no error handler, so a refused credit leaves the
  debit stored.

## Model

| member | source | states |
|---|---|---|
| Modelos.TipoDe | database/models.py:56 | the kind read from the free-text column is canonical, gives back the same text, and is Despesa or Receita exactly for those two words |
| Modelos.TipoDeTexto | database/models.py:56 | a canonical kind survives being written as text and read back |
| Modelos.NovoId | database/models.py:18 | the next auto-increment value is positive, above every id in use, and so not in use |
| Modelos.MaiorId | database/models.py:35 | the largest id in use bounds every id, is at least 0, and is one of the ids unless it is 0 (in particular for an empty table) |
| Modelos.BuscarConta | database/models.py:74 | the row found has the requested id; nothing is found exactly when no account has that id |
| Modelos.BuscarCategoria | database/models.py:75 | the row found has the requested id; nothing is found exactly when no category has that id |
| Modelos.PosicaoUsuario | database/models.py:18 | the position found holds the user with that id; none is found exactly when the id is unknown |
| Modelos.PosicaoConta | database/models.py:35 | the position found holds the account with that id; none is found exactly when the id is unknown |
| Modelos.DonoDaConta | database/functions.py:109-111 | the join of a transaction to its account yields an owner exactly when the account exists, and that owner is the id_usuario of an account row with that id |
| Modelos.TipoDaCategoria | database/procedures_triggers.py:155-157 | the SELECT of the category kind yields a kind exactly when the category exists, and that kind is the tipo of a category row with that id |
| Modelos.ChavesPrimarias | database/models.py:9-159 | no two rows of a table share a primary key, including the composite key of transacao_tag and the id of contas_backup |
| Modelos.Unicidade | database/models.py:20-141 | no two rows share a UNIQUE column: user e-mail, category name, tag name, investment-kind name |
| Modelos.ChavesEstrangeiras | database/models.py:11-159 | every NOT NULL foreign key names an existing row: account owner, transaction account and category, tag links, goal owner, investment account and kind |
| Modelos.Esquema | database/models.py:9-165 | the conjunction of the key, UNIQUE and foreign-key constraints |
| Modelos.SinaisCoerentes | database/procedures_triggers.py:148-165 | every stored amount agrees with the kind of its category, the sign the insert trigger enforces |
| Modelos.Integro | database/procedures_triggers.py:137-163 | the schema, plus: a backed-up account id is never live again, every kind is canonical, and every stored amount agrees with its kind |
| Modelos.VaziasIntegras | database/models.py:9-165 | the empty database meets every key, UNIQUE and foreign-key constraint |
| Texto.Dividir | database/procedures_triggers.py:196 | `split(" ")` yields at least one piece, no piece contains the separator, and every character of a piece comes from the text |
| Texto.JuntarDividir | database/procedures_triggers.py:196 | joining the pieces of a split gives back the original text |
| Texto.DividirNoSeparador | database/procedures_triggers.py:196 | separator-free text followed by a separator is exactly the first piece |
| Procedimentos.ValorNormalizado | database/procedures_triggers.py:159-163 | the amount after the insert trigger agrees with the kind (Despesa not positive, Receita not negative), has the same magnitude, and equals the input exactly when the input already agreed |
| Procedimentos.NormalizacaoIdempotente | database/procedures_triggers.py:159-163 | applying the sign rule twice gives the same amount as applying it once |
| Procedimentos.NormalizacaoSemTipoConhecido | database/procedures_triggers.py:159-163 | any other kind text and a missing category leave the amount unchanged |
| Procedimentos.EntraNoGasto | database/procedures_triggers.py:54-61 | the WHERE clause of the expense query: the account belongs to the user, the category, month and year match, and the category is a Despesa |
| Procedimentos.SomaGasto | database/procedures_triggers.py:53 | SUM(t.valor) over the rows that pass that WHERE clause |
| Procedimentos.SomarNaMeta | database/procedures_triggers.py:36-38 | only valor_atual changes; it grows by the amount on the goal with that id and on no other; an unknown id changes nothing |
| Procedimentos.GastosCategoria | database/procedures_triggers.py:51-62 | at most one row; a row exactly when some transaction of the user's accounts in that category, month and year matches; its name is the category's and its total the filtered sum; no row unless the kind is Despesa |
| Procedimentos.SomaGastoConcat | database/procedures_triggers.py:53 | the filtered sum is additive over concatenated transaction lists |
| Procedimentos.GastoNaoPositivo | database/procedures_triggers.py:51-62 | when every stored amount agrees with its kind, the expense total is never positive |
| Procedimentos.GastoAposTransacao | database/procedures_triggers.py:51-62 | one more transaction adds its amount to the total exactly when it passes the filter, and otherwise leaves the result unchanged |
| Procedimentos.LinhaDe | database/procedures_triggers.py:70-77 | a transaction yields a statement line exactly when its category exists, carrying its id, description, amount and date and the name of a category row with its category id |
| Procedimentos.LinhasDaConta | database/procedures_triggers.py:70-78 | the statement holds a line for every transaction of the account whose category exists, and only such lines; with distinct transaction ids no line occurs twice |
| Procedimentos.InserirPorData | database/procedures_triggers.py:79 | inserting a line into the ordering adds exactly that line |
| Procedimentos.InserirPorDataOrdena | database/procedures_triggers.py:79 | inserting into a newest-first list keeps it newest-first |
| Procedimentos.OrdenarPorData | database/procedures_triggers.py:79 | the result is ordered by date non-increasing and is a permutation of the input |
| Procedimentos.ExtratoConta | database/procedures_triggers.py:70-79 | the account statement is newest-first and a permutation of the account's lines |
| Procedimentos.ExtratoContem | database/procedures_triggers.py:70-79 | a line is in the statement exactly when some transaction of that account produces it |
| Procedimentos.BuscarCategoriaPorNome | database/procedures_triggers.py:98 | the row found carries the name; none is found exactly when no category has it |
| Procedimentos.CategoriaDaTransferencia | database/procedures_triggers.py:98-103 | a leg is booked on a category with the expected name, or on the fixed fallback id when no category has that name |
| Procedimentos.Abs | database/procedures_triggers.py:107 | ABS is non-negative and has the magnitude of its argument |
| Procedimentos.PernasDaTransferencia | database/procedures_triggers.py:105-116 | the stored debit is -abs(v) unless its category is Receita, and the stored credit is +abs(v) unless its category is Despesa |
| Procedimentos.TransferenciaSomaZero | database/procedures_triggers.py:105-116 | the two stored legs cancel out exactly when v is 0 or both legs are flipped alike |
| Procedimentos.NomeProcedimento | database/procedures_triggers.py:196 | a name exists exactly when the statement has a third space-separated piece (otherwise the IndexError); it contains no space and no parenthesis |
| Procedimentos.NomeGatilho | database/procedures_triggers.py:199 | a name exists exactly when the statement has a third space-separated piece; it contains no space |
| Procedimentos.NomeGatilhoCorrigido | database/procedures_triggers.py:199 | the same piece cut at the first line break: present under the same condition, with no space and no line break |
| Procedimentos.TerceiroPedaco | database/procedures_triggers.py:196 | the third space-separated piece of a CREATE statement is the first word after the object keyword |
| Procedimentos.NomeProcedimentoExtraiNome | database/procedures_triggers.py:196 | for a procedure, the third piece cut at the parenthesis is the bare procedure name |
| Procedimentos.NomeGatilhoLevaProximaLinha | database/procedures_triggers.py:199 | for a trigger, the third piece runs on into the next line and is not the trigger name |
| Procedimentos.NomeGatilhoEmail | database/procedures_triggers.py:199 | on the e-mail trigger's statement the extracted name is the name, a newline and BEFORE |
| Procedimentos.NomeGatilhoCorrigidoExtraiNome | database/procedures_triggers.py:199 | with the piece also cut at the newline, the trigger name is extracted |
| Funcoes.ResolverData | database/functions.py:76-79 | today's date when dataStr is None or empty, otherwise the parse of dataStr, whose failure is kept |
| Funcoes.SomaSaldos | database/functions.py:104-106 | SUM(saldo_inicial) over the user's accounts, 0 when there are none (the `or 0.0`) |
| Funcoes.SomaTransacoes | database/functions.py:109-112 | SUM(valor) over the transactions whose account the user owns, 0 when there are none |
| Funcoes.Balanco | database/functions.py:97-117 | the balance: the sum of initial balances plus the sum of the joined amounts |
| Funcoes.SomaSaldosConcat | database/functions.py:104-106 | the sum of initial balances is additive over concatenated account lists |
| Funcoes.SomaTransacoesConcat | database/functions.py:109-112 | the sum of amounts on the user's accounts is additive over concatenated transaction lists |
| Funcoes.SomaTransacoesMesmosDonos | database/functions.py:109-112 | the transaction sum depends only on who owns each referenced account |
| Funcoes.BalancoSemContas | database/functions.py:104-114 | a user who owns no account has balance 0, each empty sum counting as 0 |
| Funcoes.BalancoAposTransacao | database/functions.py:97-117 | storing one transaction moves the balance of its account's owner by its amount and no other user's balance |
| Funcoes.BalancoAposNovaConta | database/functions.py:104-106 | a new account adds its initial balance to its owner's balance only |
| Funcoes.BalancoAposExclusao | database/functions.py:104-112 | removing an unreferenced account takes its initial balance off its owner's balance only |
| Funcoes.UmaContaRecebe | database/functions.py:109-112 | over accounts with distinct ids, exactly the owning account collects an amount booked on it |
| Funcoes.SomaPorContaConcat | database/functions.py:109-112 | the account-by-account sum is additive in the transactions |
| Funcoes.SomaPorContaSemTransacoes | database/functions.py:104-106 | with no transactions the account-by-account sum is the sum of initial balances |
| Funcoes.SomaPorContaIgualBalanco | database/functions.py:104-114 | the account-by-account sum equals initial balances plus the joined transaction sum |
| Funcoes.BalancoPorConta | database/functions.py:97-117 | the balance is the sum, over the user's accounts, of each account's initial balance plus its own amounts |
| Funcoes.BalancoDoSeed | database/seed.py:57-65 | account 50.00 with expense -15.50 in a Despesa category gives balance 34.50 |
| Invariantes.DistintosMais | database/models.py:20 | a key column stays duplicate-free when a value not yet in it is added |
| Invariantes.NovoUsuarioIntegro | database/models.py:16-22 | a user with a fresh id and an unused e-mail keeps every constraint |
| Invariantes.NovaContaIntegra | database/models.py:33-41 | an account with a never-used id and an existing owner keeps every constraint |
| Invariantes.NovaCategoriaIntegra | database/models.py:52-56 | a category with a fresh id, an unused name and a canonical kind keeps every constraint, and the kind found for every stored transaction's category is unchanged |
| Invariantes.NovaTransacaoIntegra | database/models.py:66-75 | a transaction with a fresh id, existing account and category and an amount agreeing with its kind keeps every constraint |
| Invariantes.NovoEmailIntegro | database/models.py:20 | changing a user's e-mail to one no other user holds keeps every constraint |
| Invariantes.NovoLogIntegro | database/procedures_triggers.py:8-15 | a log row with a fresh id keeps every constraint |
| Invariantes.IdsSemConta | database/models.py:35 | removing one account leaves all other ids, still distinct |
| Invariantes.ContaRemovidaIntegra | database/models.py:74 | deleting an account that no transaction or investment references keeps every constraint, and its id is then neither live nor backed up |
| Invariantes.NovoBackupIntegro | database/procedures_triggers.py:19-26 | a backup row whose id is neither live nor already backed up keeps every constraint |
| Invariantes.MetaAtualizadaIntegra | database/procedures_triggers.py:33-39 | the goal update keeps every constraint |
| Invariantes.NovaMetaIntegra | database/models.py:120-129 | a goal with a fresh id and an existing owner keeps every constraint |
| Sessao.Banco.constructor | database/models.py:22 | a store over tables that meet the constraints, with the import-time creation default |
| Sessao.Banco.CriarUsuario | database/functions.py:11-39 | refused, changing nothing, exactly when the e-mail exists; otherwise exactly one user is added, with the next id, the hashed credential and the default creation time; no balance moves |
| Sessao.Banco.CriarConta | database/functions.py:41-57 | refused, changing nothing, exactly when the owner does not exist; otherwise exactly one account is added, with saldo_inicial defaulting to 0, and only the owner's balance grows by it |
| Sessao.Banco.CriarCategoria | database/functions.py:59-70 | refused, changing nothing, exactly when the name is taken; otherwise exactly one category is added with its kind text kept |
| Sessao.Banco.AntesDeInserirTransacao | database/procedures_triggers.py:148-165 | the trigger's row differs from the new row only in the amount, which is the sign-rule result: agreeing with the kind, same magnitude |
| Sessao.Banco.InserirTransacao | database/functions.py:81-95 | refused, changing nothing, exactly when the account or category is unknown; otherwise exactly one row with the trigger-normalised amount is added and only its owner's balance moves, by that amount |
| Sessao.Banco.AdicionarTransacao | database/functions.py:72-95 | refused, changing nothing, on a date that does not parse or an unknown account or category; otherwise one row with the resolved date and the normalised amount, moving only its owner's balance |
| Sessao.Banco.AntesDeAtualizarEmail | database/procedures_triggers.py:124-134 | appends one log row (user id, old e-mail, new e-mail) with the next log id when the e-mail changes and nothing when it is equal, and keeps every constraint |
| Sessao.Banco.AtualizarEmail | database/procedures_triggers.py:124-134 | refused, changing nothing, exactly when another user holds the e-mail; an unknown id changes nothing; otherwise only that user's e-mail changes, plus the log row when it differs |
| Sessao.Banco.DepoisDeExcluirConta | database/procedures_triggers.py:137-145 | on an id that is neither live nor backed up, appends exactly one backup row with the removed account's id, name, type, initial balance and owner, and keeps every constraint |
| Sessao.Banco.ExcluirConta | database/models.py:74 | refused, changing nothing, exactly when a transaction or investment references the account; an unknown id changes nothing; otherwise the account is removed, one backup row appended, and only its owner's balance drops by its initial balance |
| Sessao.Banco.CriarMeta | database/models.py:120-129 | refused, changing nothing, exactly when the owner is unknown; otherwise one goal with valor_atual 0 is added |
| Sessao.Banco.AtualizarSaldoMeta | database/procedures_triggers.py:33-39 | only the goals table changes, as SomarNaMeta says, and the constraints still hold |
| Sessao.Banco.RegistrarTransferencia | database/procedures_triggers.py:84-117 | only transactions change; the debit is stored iff its account and category exist, the credit iff both legs are accepted; a refused credit leaves the debit; when both are stored they cancel out exactly when v is 0 or both legs are flipped alike |
| Sessao.CategoriasDoSeedBemFormadas | database/seed.py:29-40 | the ten seeded names are pairwise different, their ids run 1 to 10 in call order, and their kinds are canonical |
| Sessao.PassoDaSemente | database/seed.py:29-40 | before the n-th seeded call the next category id is n + 1 and the name is unused |
| Sessao.SemearCategoria | database/seed.py:29-40 | one seeded criar_categoria call adds exactly the next row of the list, keeping every constraint |
| Sessao.SemearGrupo | database/seed.py:29-40 | five consecutive seeded calls add the next five rows |
| Sessao.SemearCategorias | database/seed.py:29-40 | the ten calls on an empty store leave exactly the ten categories and nothing else |
| Sessao.SemearUsuarioEConta | database/seed.py:49-62 | the only user is the test user with id 1, the hashed password and the default creation time; the only account is "Carteira" with id 1 and 50.00; categories are untouched and no transaction exists |
| Sessao.PrepararSeed | database/seed.py:29-62 | the whole seeding before the transaction: the ten categories with ids 1 to 10, the test user with id 1, account 1 with 50.00, no transactions |
| Sessao.LancarLanche | database/seed.py:65 | the store then holds exactly one transaction, id 1, -15.50 on account 1, category 1, dated 2025-11-01 (the sign kept), categories and accounts untouched; the returned value is the owner's Balanco in that store, 34.50 |
| Sessao.CenarioDoSeed | database/seed.py:29-65 | returns the fresh seeded store (the ten categories, account 1, the one expense row) and the test user's Balanco in it, 34.50 |
| Sessao.PorNomeNoSeed | database/seed.py:29-40 | looking a seeded name up gives the id the seed gave it |
| Sessao.PorIdNoSeed | database/seed.py:29-40 | looking a seeded id up gives the kind the seed gave it |
| Sessao.TransferenciaNoSeed | database/procedures_triggers.py:98-116 | in the seeded store the transfer books its debit on category 6 (an expense) and its credit on 10 (an income), and the two stored legs cancel out |

## Left out

- Floating point: every FLOAT column is `int` hundredths. Nothing is said about rounding or about printing with `:.2f`.
- Investment quantities are `int`.
- Password hashing: `hash_senha` is a parameter function. bcrypt's random salt, which makes real hashes differ from call to call, and `verificar_senha` are not modelled.
- Session plumbing: the engine, scoped session, commit, rollback and `fechar_sessao` are not modelled; a failed write is "tables unchanged".
- The DROP/CREATE loop of `criar_procedures_e_triggers` is database I/O with swallowed errors. Only the name it hands to DROP is modelled.
- The clock and date parsing are inputs:
  - `date.today()` and `CURDATE()` are the parameter `hoje`;
  - `CURRENT_TIMESTAMP` and `datetime.now` are `agora` and `criacaoPadrao`;
  - `strptime` is a parameter function whose `None` is the ValueError.
- Not modelled: the CLI (app.py), the configuration (config/settings.py), and the control flow of the seeding script beyond the scenario methods.
- Budgets (`Orcamento`) are declared and never used; they are not modelled.
- Tags, investment kinds and investments carry only their keys and constraints. No operation writes them.
- MySQL string comparison is collation-based, usually case-insensitive. Here equality is exact, so the UNIQUE checks and the `'Despesa'` tests are case-sensitive.
- VARCHAR length limits and strict-mode truncation are not modelled.
- NULL inputs to the procedures are not modelled: a NULL `valor_atual` would make sp_atualizar_saldo_meta store NULL, and a NULL description would make the transfer's CONCAT NULL. No code path of the repository produces either value.
- Sessao.Banco.CriarUsuario: other failures are not modelled, for example an over-long name, so the contract says the insert succeeds whenever the e-mail is new. The same holds for CriarConta, CriarCategoria and InserirTransacao.
- Auto-increment ids are one above the current maximum. InnoDB's counter also counts ids burnt by rolled-back inserts and deleted rows, so real ids can be larger. For accounts, the backup table stands in for the deleted ids.
- Sessao.Banco.AtualizarEmail: the UNIQUE check is made before the trigger writes its log row. MySQL writes the log row first and then undoes the whole statement; the resulting tables are the same.
- Procedimentos.ExtratoConta: the order among transactions of the same date is left open by ORDER BY. This model fixes one order, and its contract promises only the date order and the permutation.
- Concurrency and isolation are not addressed by the code and are not modelled.
- Updates of transaction amounts or category kinds are not modelled: no code path performs them. `Integro`'s sign agreement relies on this.

## Findings

| source | as written | input that shows it | evidently intended | confidence | as-written member | corrected member |
|---|---|---|---|---|---|---|
| database/procedures_triggers.py:199 | the trigger name for DROP TRIGGER IF EXISTS is `sql.split(" ")[2]` | the statement of tr_antes_atualizar_email_usuario, whose third space-separated piece is `tr_antes_atualizar_email_usuario\nBEFORE`, so the DROP fails (the error is swallowed) and a second run's CREATE TRIGGER fails because the trigger exists | cut the piece at the line break, as the procedure branch cuts at the parenthesis | not executed | Procedimentos.NomeGatilhoEmail | Procedimentos.NomeGatilhoCorrigidoExtraiNome |
