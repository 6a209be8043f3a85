/** The failure-compatible Option used for every "row or None" result. */
module Opcoes {
  datatype Option<+T> = None | Some(value: T)
}

/**
  The tables of the ledger (database/models.py) and the two audit tables that the
  triggers write (log_atualizacao_usuarios, contas_backup), together with the
  schema constraints as predicates: primary keys, UNIQUE columns, NOT NULL
  foreign keys, and the composite key of the transaction/tag association.
  Rows refer to each other by integer id only.
*/
module Modelos {
  import opened Opcoes

  /** Monetary amounts, in hundredths of the currency unit. */
  type Centavos = int

  /** A point in time read from a clock (CURRENT_TIMESTAMP, datetime.now). */
  type Instante = int

  /** A calendar date, as held in a DATE column. */
  datatype Data = Data(ano: int, mes: int, dia: int)

  /** `a` is not later than `b` (chronological order of dates). */
  predicate NaoPosterior(a: Data, b: Data) {
    a.ano < b.ano || (a.ano == b.ano && (a.mes < b.mes || (a.mes == b.mes && a.dia <= b.dia)))
  }

  /** The kind of a category. The column is free text; only two words mean something. */
  datatype Tipo = Despesa | Receita | Outro(texto: string)

  /** A kind is canonical when `Outro` does not hold one of the two reserved words. */
  predicate Canonico(t: Tipo) {
    t.Outro? ==> t.texto != "Despesa" && t.texto != "Receita"
  }

  function TextoDe(t: Tipo): string {
    match t
    case Despesa => "Despesa"
    case Receita => "Receita"
    case Outro(s) => s
  }

  /** Reads the text of categorias.tipo; the text is recovered unchanged. */
  function TipoDe(s: string): (r: Tipo)
    ensures Canonico(r)
    ensures TextoDe(r) == s
    ensures r == Despesa <==> s == "Despesa"
    ensures r == Receita <==> s == "Receita"
  {
    if s == "Despesa" then Despesa
    else if s == "Receita" then Receita
    else Outro(s)
  }

  /** The other direction of the round trip: a canonical kind survives being written as text. */
  lemma TipoDeTexto(t: Tipo)
    requires Canonico(t)
    ensures TipoDe(TextoDe(t)) == t
  {
  }

  /** An amount agrees with the kind of its category: expenses are not positive, income is not negative. */
  predicate SinalCoerente(tipo: Option<Tipo>, valor: Centavos) {
    (tipo == Some(Despesa) ==> valor <= 0) && (tipo == Some(Receita) ==> valor >= 0)
  }

  // ---------------------------------------------------------------------------
  // Rows

  datatype Usuario = Usuario(id: int, nome: string, email: string, senhaHash: string, dataCriacao: Instante)

  datatype Conta = Conta(id: int, nome: string, tipo: string, saldoInicial: Centavos, usuario: int)

  datatype Categoria = Categoria(id: int, nome: string, tipo: Tipo)

  datatype Transacao = Transacao(id: int, descricao: string, valor: Centavos, data: Data, conta: int, categoria: int)

  datatype Tag = Tag(id: int, nome: string)

  /** A row of the transacao_tag association; the pair is the primary key. */
  datatype TransacaoTag = TransacaoTag(transacao: int, tag: int)

  datatype Meta = Meta(id: int, nome: string, valorObjetivo: Centavos, valorAtual: Centavos, dataLimite: Option<Data>, usuario: int)

  datatype TipoInvestimento = TipoInvestimento(id: int, nome: string)

  datatype Investimento = Investimento(id: int, simbolo: string, quantidade: int, precoMedio: Centavos, conta: int, tipoInvestimento: int)

  /** A row of log_atualizacao_usuarios. */
  datatype LogEmail = LogEmail(id: int, usuario: int, emailAntigo: string, emailNovo: string, dataModificacao: Instante)

  /** A row of contas_backup; `id` is the archived account's id and the table's primary key. */
  datatype ContaBackup = ContaBackup(id: int, nome: string, tipo: string, saldoInicial: Centavos, usuario: int, dataExclusao: Instante)

  /** The whole database at one moment. */
  datatype Tabelas = Tabelas(
    usuarios: seq<Usuario>,
    contas: seq<Conta>,
    categorias: seq<Categoria>,
    transacoes: seq<Transacao>,
    tags: seq<Tag>,
    transacaoTags: seq<TransacaoTag>,
    metas: seq<Meta>,
    tiposInvestimento: seq<TipoInvestimento>,
    investimentos: seq<Investimento>,
    logEmails: seq<LogEmail>,
    contasBackup: seq<ContaBackup>)

  function TabelasVazias(): Tabelas {
    Tabelas([], [], [], [], [], [], [], [], [], [], [])
  }

  // ---------------------------------------------------------------------------
  // Column projections

  function IdsUsuarios(s: seq<Usuario>): seq<int> { seq(|s|, i requires 0 <= i < |s| => s[i].id) }
  function Emails(s: seq<Usuario>): seq<string> { seq(|s|, i requires 0 <= i < |s| => s[i].email) }
  function IdsContas(s: seq<Conta>): seq<int> { seq(|s|, i requires 0 <= i < |s| => s[i].id) }
  function IdsCategorias(s: seq<Categoria>): seq<int> { seq(|s|, i requires 0 <= i < |s| => s[i].id) }
  function NomesCategorias(s: seq<Categoria>): seq<string> { seq(|s|, i requires 0 <= i < |s| => s[i].nome) }
  function IdsTransacoes(s: seq<Transacao>): seq<int> { seq(|s|, i requires 0 <= i < |s| => s[i].id) }
  function IdsTags(s: seq<Tag>): seq<int> { seq(|s|, i requires 0 <= i < |s| => s[i].id) }
  function NomesTags(s: seq<Tag>): seq<string> { seq(|s|, i requires 0 <= i < |s| => s[i].nome) }
  function IdsMetas(s: seq<Meta>): seq<int> { seq(|s|, i requires 0 <= i < |s| => s[i].id) }
  function IdsTipos(s: seq<TipoInvestimento>): seq<int> { seq(|s|, i requires 0 <= i < |s| => s[i].id) }
  function NomesTipos(s: seq<TipoInvestimento>): seq<string> { seq(|s|, i requires 0 <= i < |s| => s[i].nome) }
  function IdsInvestimentos(s: seq<Investimento>): seq<int> { seq(|s|, i requires 0 <= i < |s| => s[i].id) }
  function IdsLogs(s: seq<LogEmail>): seq<int> { seq(|s|, i requires 0 <= i < |s| => s[i].id) }
  function IdsBackups(s: seq<ContaBackup>): seq<int> { seq(|s|, i requires 0 <= i < |s| => s[i].id) }

  /** No value occurs twice (a primary key or a UNIQUE column). */
  predicate Distintos<T(==)>(s: seq<T>) {
    forall i, j | 0 <= i < j < |s| :: s[i] != s[j]
  }

  // ---------------------------------------------------------------------------
  // Auto-increment ids

  /** The largest id in use, or 0 when no id is positive (an empty table in particular). */
  function MaiorId(ids: seq<int>): (r: int)
    ensures r >= 0
    ensures forall i | 0 <= i < |ids| :: ids[i] <= r
    ensures r == 0 || r in ids
  {
    if ids == [] then 0
    else
      var resto := MaiorId(ids[1..]);
      if ids[0] > resto then ids[0] else resto
  }

  /** The id AUTO_INCREMENT hands out next: positive and above every id ever used. */
  function NovoId(ids: seq<int>): (r: int)
    ensures r >= 1
    ensures forall i | 0 <= i < |ids| :: ids[i] < r
    ensures r !in ids
  {
    MaiorId(ids) + 1
  }

  // ---------------------------------------------------------------------------
  // Lookups by primary key (the joins of the queries)

  function BuscarConta(s: seq<Conta>, id: int): (r: Option<Conta>)
    ensures r.Some? ==> r.value in s && r.value.id == id
    ensures r.None? <==> id !in IdsContas(s)
  {
    if s == [] then None
    else if s[0].id == id then assert IdsContas(s)[0] == id; Some(s[0])
    else
      assert IdsContas(s) == [s[0].id] + IdsContas(s[1..]);
      BuscarConta(s[1..], id)
  }

  function BuscarCategoria(s: seq<Categoria>, id: int): (r: Option<Categoria>)
    ensures r.Some? ==> r.value in s && r.value.id == id
    ensures r.None? <==> id !in IdsCategorias(s)
  {
    if s == [] then None
    else if s[0].id == id then assert IdsCategorias(s)[0] == id; Some(s[0])
    else
      assert IdsCategorias(s) == [s[0].id] + IdsCategorias(s[1..]);
      BuscarCategoria(s[1..], id)
  }

  /** Position of the user with this id (the row an UPDATE ... WHERE id_usuario = id touches). */
  function PosicaoUsuario(s: seq<Usuario>, id: int): (r: Option<nat>)
    ensures r.Some? ==> r.value < |s| && s[r.value].id == id
    ensures r.None? <==> id !in IdsUsuarios(s)
  {
    if s == [] then None
    else if s[0].id == id then assert IdsUsuarios(s)[0] == id; Some(0)
    else
      assert IdsUsuarios(s) == [s[0].id] + IdsUsuarios(s[1..]);
      match PosicaoUsuario(s[1..], id)
      case None => None
      case Some(k) => Some(k + 1)
  }

  /** Position of the account with this id (the row a DELETE ... WHERE id_conta = id removes). */
  function PosicaoConta(s: seq<Conta>, id: int): (r: Option<nat>)
    ensures r.Some? ==> r.value < |s| && s[r.value].id == id
    ensures r.None? <==> id !in IdsContas(s)
  {
    if s == [] then None
    else if s[0].id == id then assert IdsContas(s)[0] == id; Some(0)
    else
      assert IdsContas(s) == [s[0].id] + IdsContas(s[1..]);
      match PosicaoConta(s[1..], id)
      case None => None
      case Some(k) => Some(k + 1)
  }

  /** The owner of an account: the join transacoes.id_conta = contas.id_conta. */
  function DonoDaConta(contas: seq<Conta>, idConta: int): (r: Option<int>)
    ensures r.Some? <==> idConta in IdsContas(contas)
    ensures r.Some? ==> exists c | c in contas :: c.id == idConta && c.usuario == r.value
  {
    match BuscarConta(contas, idConta)
    case None => None
    case Some(c) => Some(c.usuario)
  }

  /** categorias.tipo of a category, None when no row has that id. */
  function TipoDaCategoria(categorias: seq<Categoria>, id: int): (r: Option<Tipo>)
    ensures r.Some? <==> id in IdsCategorias(categorias)
    ensures r.Some? ==> exists c | c in categorias :: c.id == id && c.tipo == r.value
  {
    match BuscarCategoria(categorias, id)
    case None => None
    case Some(c) => Some(c.tipo)
  }

  /** A first match in a prefix wins over the rest of the table. */
  lemma {:induction false} BuscarContaConcat(a: seq<Conta>, b: seq<Conta>, id: int)
    ensures BuscarConta(a + b, id) == if BuscarConta(a, id).Some? then BuscarConta(a, id) else BuscarConta(b, id)
  {
    if a != [] {
      assert (a + b)[1..] == a[1..] + b;
      BuscarContaConcat(a[1..], b, id);
    } else {
      assert a + b == b;
    }
  }

  lemma {:induction false} BuscarCategoriaConcat(a: seq<Categoria>, b: seq<Categoria>, id: int)
    ensures BuscarCategoria(a + b, id) == if BuscarCategoria(a, id).Some? then BuscarCategoria(a, id) else BuscarCategoria(b, id)
  {
    if a != [] {
      assert (a + b)[1..] == a[1..] + b;
      BuscarCategoriaConcat(a[1..], b, id);
    } else {
      assert a + b == b;
    }
  }

  // ---------------------------------------------------------------------------
  // Schema constraints (database/models.py)

  /** Every table's primary key, the composite key of transacao_tag, and contas_backup.id_conta. */
  predicate ChavesPrimarias(t: Tabelas) {
    && Distintos(IdsUsuarios(t.usuarios))
    && Distintos(IdsContas(t.contas))
    && Distintos(IdsCategorias(t.categorias))
    && Distintos(IdsTransacoes(t.transacoes))
    && Distintos(IdsTags(t.tags))
    && Distintos(t.transacaoTags)
    && Distintos(IdsMetas(t.metas))
    && Distintos(IdsTipos(t.tiposInvestimento))
    && Distintos(IdsInvestimentos(t.investimentos))
    && Distintos(IdsLogs(t.logEmails))
    && Distintos(IdsBackups(t.contasBackup))
  }

  /** The UNIQUE columns: user email, category name, tag name, investment-kind name. */
  predicate Unicidade(t: Tabelas) {
    && Distintos(Emails(t.usuarios))
    && Distintos(NomesCategorias(t.categorias))
    && Distintos(NomesTags(t.tags))
    && Distintos(NomesTipos(t.tiposInvestimento))
  }

  /** Every NOT NULL foreign key names an existing row. */
  predicate ChavesEstrangeiras(t: Tabelas) {
    && (forall c | c in t.contas :: c.usuario in IdsUsuarios(t.usuarios))
    && (forall x | x in t.transacoes :: x.conta in IdsContas(t.contas))
    && (forall x | x in t.transacoes :: x.categoria in IdsCategorias(t.categorias))
    && (forall p | p in t.transacaoTags :: p.transacao in IdsTransacoes(t.transacoes) && p.tag in IdsTags(t.tags))
    && (forall m | m in t.metas :: m.usuario in IdsUsuarios(t.usuarios))
    && (forall v | v in t.investimentos :: v.conta in IdsContas(t.contas))
    && (forall v | v in t.investimentos :: v.tipoInvestimento in IdsTipos(t.tiposInvestimento))
  }

  /** What the constraints of the schema demand. */
  predicate Esquema(t: Tabelas) {
    ChavesPrimarias(t) && Unicidade(t) && ChavesEstrangeiras(t)
  }

  /**
    What the schema and the triggers keep true together: an archived account id is
    never live again (ids are not reused), every kind is canonical, and every stored
    amount agrees with the kind of its category (the insert trigger's guarantee).
  */
  predicate Integro(t: Tabelas) {
    && Esquema(t)
    && (forall b | b in t.contasBackup :: b.id !in IdsContas(t.contas))
    && (forall c | c in t.categorias :: Canonico(c.tipo))
    && SinaisCoerentes(t)
  }

  predicate SinaisCoerentes(t: Tabelas) {
    forall x | x in t.transacoes :: SinalCoerente(TipoDaCategoria(t.categorias, x.categoria), x.valor)
  }

  lemma VaziasIntegras()
    ensures Integro(TabelasVazias())
  {
  }
}
