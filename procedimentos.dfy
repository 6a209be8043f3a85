/**
  The rules of database/procedures_triggers.py that compute values: the sign
  rule of the insert trigger, the effect of sp_atualizar_saldo_meta on the goals
  table, the two SELECT procedures (expense total, account statement), the
  category and amount choices of sp_registrar_transferencia, and the way
  criar_procedures_e_triggers cuts the object name out of a CREATE statement.
  The statements that write tables are methods of Sessao.Banco.
*/
module Procedimentos {
  import opened Opcoes
  import opened Modelos
  import opened Texto

  // ---------------------------------------------------------------------------
  // tr_antes_inserir_transacao

  /**
    The amount the insert trigger leaves in NEW.valor, given the kind it read for
    the category (None when no category has that id). The result agrees with the
    kind, has the same magnitude, and equals the input exactly when the input
    already agreed with the kind.
  */
  function ValorNormalizado(tipo: Option<Tipo>, valor: Centavos): (r: Centavos)
    ensures SinalCoerente(tipo, r)
    ensures r == valor || r == -valor
    ensures r == valor <==> SinalCoerente(tipo, valor)
  {
    if tipo == Some(Despesa) && valor > 0 then valor * -1
    else if tipo == Some(Receita) && valor < 0 then valor * -1
    else valor
  }

  /** Running the rule on its own output changes nothing. */
  lemma NormalizacaoIdempotente(tipo: Option<Tipo>, valor: Centavos)
    ensures ValorNormalizado(tipo, ValorNormalizado(tipo, valor)) == ValorNormalizado(tipo, valor)
  {
  }

  /** A kind other than the two reserved words, or a missing category, leaves the amount alone. */
  lemma NormalizacaoSemTipoConhecido(tipo: Option<Tipo>, valor: Centavos)
    requires tipo != Some(Despesa) && tipo != Some(Receita)
    ensures ValorNormalizado(tipo, valor) == valor
  {
  }

  // ---------------------------------------------------------------------------
  // sp_atualizar_saldo_meta

  /**
    The goals table after UPDATE metas SET valor_atual = valor_atual + v WHERE
    id_meta = id: only valor_atual of the goals with that id moves, by exactly v.
  */
  function SomarNaMeta(metas: seq<Meta>, id: int, v: Centavos): (r: seq<Meta>)
    ensures |r| == |metas|
    ensures forall i | 0 <= i < |metas| :: r[i] == metas[i].(valorAtual := r[i].valorAtual)
    ensures forall i | 0 <= i < |metas| :: r[i].valorAtual == metas[i].valorAtual + (if metas[i].id == id then v else 0)
    ensures id !in IdsMetas(metas) ==> r == metas
  {
    var r := seq(|metas|, i requires 0 <= i < |metas| =>
      if metas[i].id == id then metas[i].(valorAtual := metas[i].valorAtual + v) else metas[i]);
    assert forall i | 0 <= i < |metas| :: IdsMetas(metas)[i] == metas[i].id;
    r
  }

  // ---------------------------------------------------------------------------
  // sp_calcular_gastos_categoria

  /** The procedure's four IN parameters. */
  datatype ConsultaGasto = ConsultaGasto(usuario: int, categoria: int, mes: int, ano: int)

  /** The one output row: c.nome AS categoria, SUM(t.valor) AS total_gasto. */
  datatype LinhaGasto = LinhaGasto(categoria: string, totalGasto: Centavos)

  /** The WHERE clause, with both joins, for one transaction. */
  predicate EntraNoGasto(t: Tabelas, q: ConsultaGasto, x: Transacao) {
    && DonoDaConta(t.contas, x.conta) == Some(q.usuario)
    && x.categoria == q.categoria
    && x.data.mes == q.mes
    && x.data.ano == q.ano
    && TipoDaCategoria(t.categorias, x.categoria) == Some(Despesa)
  }

  /** SUM(t.valor) over the rows of `ts` that pass the WHERE clause. */
  function SomaGasto(t: Tabelas, q: ConsultaGasto, ts: seq<Transacao>): Centavos {
    if ts == [] then 0
    else (if EntraNoGasto(t, q, ts[0]) then ts[0].valor else 0) + SomaGasto(t, q, ts[1..])
  }

  /**
    The result set of the procedure. GROUP BY c.nome over a single category id
    yields at most one row, and no row at all when no transaction passes the
    filter (so a category that is not an expense, or that does not exist, never
    yields a row).
  */
  function GastosCategoria(t: Tabelas, q: ConsultaGasto): (r: Option<LinhaGasto>)
    ensures r.Some? <==> exists x | x in t.transacoes :: EntraNoGasto(t, q, x)
    ensures r.Some? ==> BuscarCategoria(t.categorias, q.categoria) == Some(Categoria(q.categoria, r.value.categoria, Despesa))
    ensures r.Some? ==> r.value.totalGasto == SomaGasto(t, q, t.transacoes)
    ensures TipoDaCategoria(t.categorias, q.categoria) != Some(Despesa) ==> r.None?
  {
    match BuscarCategoria(t.categorias, q.categoria)
    case None => None
    case Some(c) =>
      if c.tipo == Despesa && exists x | x in t.transacoes :: EntraNoGasto(t, q, x)
      then Some(LinhaGasto(c.nome, SomaGasto(t, q, t.transacoes)))
      else None
  }

  /** A sum over a concatenation is the sum of the two sums. */
  lemma {:induction false} SomaGastoConcat(t: Tabelas, q: ConsultaGasto, a: seq<Transacao>, b: seq<Transacao>)
    ensures SomaGasto(t, q, a + b) == SomaGasto(t, q, a) + SomaGasto(t, q, b)
  {
    if a == [] {
      assert a + b == b;
    } else {
      assert (a + b)[1..] == a[1..] + b;
      SomaGastoConcat(t, q, a[1..], b);
    }
  }

  /** When every stored amount agrees with its category's kind, an expense total is never positive. */
  lemma {:induction false} SomaGastoNaoPositiva(t: Tabelas, q: ConsultaGasto, ts: seq<Transacao>)
    requires forall x | x in ts :: SinalCoerente(TipoDaCategoria(t.categorias, x.categoria), x.valor)
    ensures SomaGasto(t, q, ts) <= 0
  {
    if ts != [] {
      assert ts[0] in ts;
      SomaGastoNaoPositiva(t, q, ts[1..]);
    }
  }

  /** The insert trigger's guarantee makes every total_gasto the procedure returns at most 0. */
  lemma GastoNaoPositivo(t: Tabelas, q: ConsultaGasto)
    requires SinaisCoerentes(t)
    ensures GastosCategoria(t, q).Some? ==> GastosCategoria(t, q).value.totalGasto <= 0
  {
    SomaGastoNaoPositiva(t, q, t.transacoes);
  }

  /**
    One more transaction (accounts and categories unchanged) adds its amount to
    the total exactly when it passes the filter, and otherwise leaves the result as it was.
  */
  lemma GastoAposTransacao(t: Tabelas, q: ConsultaGasto, x: Transacao)
    ensures var t' := t.(transacoes := t.transacoes + [x]);
      && (EntraNoGasto(t, q, x) ==>
            (GastosCategoria(t', q).Some? &&
             GastosCategoria(t', q).value.totalGasto ==
               (if GastosCategoria(t, q).Some? then GastosCategoria(t, q).value.totalGasto else 0) + x.valor))
      && (!EntraNoGasto(t, q, x) ==> GastosCategoria(t', q) == GastosCategoria(t, q))
  {
    var t' := t.(transacoes := t.transacoes + [x]);
    assert x in t'.transacoes;
    SomaGastoConcat(t, q, t.transacoes, [x]);
    SomaGastoConcat(t', q, t.transacoes, [x]);
    assert [x][1..] == [];
    assert forall y :: EntraNoGasto(t', q, y) == EntraNoGasto(t, q, y);
    assert SomaGasto(t', q, t.transacoes) == SomaGasto(t, q, t.transacoes) by {
      SomaGastoMesmasTabelas(t, t', q, t.transacoes);
    }
    if !GastosCategoria(t, q).Some? {
      SomaGastoSemEntradas(t, q, t.transacoes);
    }
    if !EntraNoGasto(t, q, x) {
      forall y | y in t'.transacoes && EntraNoGasto(t', q, y) ensures y in t.transacoes {
        assert y != x;
      }
    }
  }

  /** The total depends on the accounts and categories only, not on which table value holds the rows. */
  lemma {:induction false} SomaGastoMesmasTabelas(t: Tabelas, t': Tabelas, q: ConsultaGasto, ts: seq<Transacao>)
    requires t'.contas == t.contas && t'.categorias == t.categorias
    ensures SomaGasto(t', q, ts) == SomaGasto(t, q, ts)
  {
    if ts != [] {
      SomaGastoMesmasTabelas(t, t', q, ts[1..]);
    }
  }

  lemma {:induction false} SomaGastoSemEntradas(t: Tabelas, q: ConsultaGasto, ts: seq<Transacao>)
    requires forall x | x in ts :: !EntraNoGasto(t, q, x)
    ensures SomaGasto(t, q, ts) == 0
  {
    if ts != [] {
      assert ts[0] in ts;
      SomaGastoSemEntradas(t, q, ts[1..]);
    }
  }

  // ---------------------------------------------------------------------------
  // sp_obter_transacoes_conta

  /** One output row: id, description, amount, date and the category's name. */
  datatype LinhaExtrato = LinhaExtrato(id: int, descricao: string, valor: Centavos, data: Data, categoria: string)

  /** The row a transaction contributes, None when the join with categorias finds nothing. */
  function LinhaDe(categorias: seq<Categoria>, x: Transacao): (r: Option<LinhaExtrato>)
    ensures r.Some? <==> x.categoria in IdsCategorias(categorias)
    ensures r.Some? ==> r.value.id == x.id && r.value.valor == x.valor && r.value.data == x.data && r.value.descricao == x.descricao
    ensures r.Some? ==> exists c | c in categorias :: c.id == x.categoria && c.nome == r.value.categoria
  {
    match BuscarCategoria(categorias, x.categoria)
    case None => None
    case Some(c) => Some(LinhaExtrato(x.id, x.descricao, x.valor, x.data, c.nome))
  }

  /** The rows that pass WHERE t.id_conta = conta and the join, in table order. */
  function LinhasDaConta(categorias: seq<Categoria>, ts: seq<Transacao>, conta: int): (r: seq<LinhaExtrato>)
    ensures |r| <= |ts|
    ensures forall x | x in ts && x.conta == conta && LinhaDe(categorias, x).Some? :: LinhaDe(categorias, x).value in r
    ensures forall l | l in r :: exists x | x in ts :: x.conta == conta && LinhaDe(categorias, x) == Some(l)
    ensures Distintos(IdsTransacoes(ts)) ==> Distintos(r)
  {
    if ts == [] then []
    else
      var resto := LinhasDaConta(categorias, ts[1..], conta);
      assert forall x | x in ts :: x == ts[0] || x in ts[1..];
      IdsDaCauda(ts);
      if ts[0].conta == conta && LinhaDe(categorias, ts[0]).Some? then [LinhaDe(categorias, ts[0]).value] + resto
      else resto
  }

  /** With distinct transaction ids, the tail's ids are distinct and all differ from the head's. */
  lemma IdsDaCauda(ts: seq<Transacao>)
    requires ts != []
    ensures Distintos(IdsTransacoes(ts)) ==> Distintos(IdsTransacoes(ts[1..]))
    ensures Distintos(IdsTransacoes(ts)) ==> forall x | x in ts[1..] :: x.id != ts[0].id
  {
    var ids := IdsTransacoes(ts);
    assert IdsTransacoes(ts[1..]) == ids[1..];
    if Distintos(ids) {
      forall x | x in ts[1..] ensures x.id != ts[0].id {
        var k :| 0 <= k < |ts[1..]| && ts[1..][k] == x;
        assert ids[k + 1] == x.id && ids[0] == ts[0].id;
      }
    }
  }

  /** Newest first: the order of ORDER BY t.data DESC. */
  predicate Decrescente(s: seq<LinhaExtrato>) {
    forall i, j | 0 <= i < j < |s| :: NaoPosterior(s[j].data, s[i].data)
  }

  /** Puts a row in front of the first row that is not later than it. */
  function InserirPorData(l: LinhaExtrato, s: seq<LinhaExtrato>): (r: seq<LinhaExtrato>)
    ensures multiset(r) == multiset(s) + multiset{l}
  {
    if s == [] || NaoPosterior(s[0].data, l.data) then [l] + s
    else
      assert s == [s[0]] + s[1..];
      [s[0]] + InserirPorData(l, s[1..])
  }

  lemma NaoPosteriorTransitivo(a: Data, b: Data, c: Data)
    requires NaoPosterior(a, b) && NaoPosterior(b, c)
    ensures NaoPosterior(a, c)
  {
  }

  /** A row that is not earlier than any row of a newest-first statement can head it. */
  lemma DecrescenteComCabeca(h: LinhaExtrato, r: seq<LinhaExtrato>)
    requires Decrescente(r)
    requires forall y | y in r :: NaoPosterior(y.data, h.data)
    ensures Decrescente([h] + r)
  {
    var c := [h] + r;
    forall i, j | 0 <= i < j < |c| ensures NaoPosterior(c[j].data, c[i].data) {
      assert c[j] == r[j - 1];
      if i == 0 {
        assert c[j] in r;
      } else {
        assert c[i] == r[i - 1];
      }
    }
  }

  /** Inserting into a statement that is newest first keeps it newest first. */
  lemma {:induction false} InserirPorDataOrdena(l: LinhaExtrato, s: seq<LinhaExtrato>)
    requires Decrescente(s)
    ensures Decrescente(InserirPorData(l, s))
  {
    if s == [] || NaoPosterior(s[0].data, l.data) {
      forall y | y in s ensures NaoPosterior(y.data, l.data) {
        var k :| 0 <= k < |s| && s[k] == y;
        if k > 0 {
          NaoPosteriorTransitivo(s[k].data, s[0].data, l.data);
        }
      }
      DecrescenteComCabeca(l, s);
    } else {
      var resto := InserirPorData(l, s[1..]);
      InserirPorDataOrdena(l, s[1..]);
      forall y | y in resto ensures NaoPosterior(y.data, s[0].data) {
        assert y in multiset(resto);
        if y != l {
          assert y in multiset(s[1..]);
          var k :| 0 <= k < |s[1..]| && s[1..][k] == y;
          assert s[k + 1] == y;
        }
      }
      DecrescenteComCabeca(s[0], resto);
    }
  }

  /** A sort by date, newest first, of any rows. */
  function OrdenarPorData(s: seq<LinhaExtrato>): (r: seq<LinhaExtrato>)
    ensures Decrescente(r)
    ensures multiset(r) == multiset(s)
  {
    if s == [] then []
    else
      assert s == [s[0]] + s[1..];
      InserirPorDataOrdena(s[0], OrdenarPorData(s[1..]));
      InserirPorData(s[0], OrdenarPorData(s[1..]))
  }

  /**
    The result set of the procedure: exactly the rows of the account's
    transactions (with their category's name), newest first. Rows with the same
    date come in table order; the server leaves that order open.
  */
  function ExtratoConta(t: Tabelas, conta: int): (r: seq<LinhaExtrato>)
    ensures Decrescente(r)
    ensures multiset(r) == multiset(LinhasDaConta(t.categorias, t.transacoes, conta))
  {
    OrdenarPorData(LinhasDaConta(t.categorias, t.transacoes, conta))
  }

  /** A row is in the statement exactly when it is the row of one of the account's transactions. */
  lemma ExtratoContem(t: Tabelas, conta: int, l: LinhaExtrato)
    ensures l in ExtratoConta(t, conta) <==> exists x | x in t.transacoes :: x.conta == conta && LinhaDe(t.categorias, x) == Some(l)
  {
    var r := ExtratoConta(t, conta);
    var linhas := LinhasDaConta(t.categorias, t.transacoes, conta);
    assert (l in r) == (l in multiset(r));
    assert (l in linhas) == (l in multiset(linhas));
    if exists x | x in t.transacoes :: x.conta == conta && LinhaDe(t.categorias, x) == Some(l) {
      var x :| x in t.transacoes && x.conta == conta && LinhaDe(t.categorias, x) == Some(l);
      assert l in linhas;
    }
  }

  // ---------------------------------------------------------------------------
  // sp_registrar_transferencia

  const NomeTransferenciaSaida: string := "Transferência Saída"
  const NomeTransferenciaEntrada: string := "Transferência Entrada"
  /** The ids used when no category carries the expected name. */
  const CategoriaSaidaPadrao: int := 1
  const CategoriaEntradaPadrao: int := 2

  /** SELECT id_categoria FROM categorias WHERE nome = nome LIMIT 1, in table order. */
  function BuscarCategoriaPorNome(s: seq<Categoria>, nome: string): (r: Option<Categoria>)
    ensures r.Some? ==> r.value in s && r.value.nome == nome
    ensures r.None? <==> nome !in NomesCategorias(s)
  {
    if s == [] then None
    else if s[0].nome == nome then assert NomesCategorias(s)[0] == nome; Some(s[0])
    else
      assert NomesCategorias(s) == [s[0].nome] + NomesCategorias(s[1..]);
      BuscarCategoriaPorNome(s[1..], nome)
  }

  /** The category a transfer leg is booked on: the one with that name, else the fixed fallback id. */
  function CategoriaDaTransferencia(s: seq<Categoria>, nome: string, padrao: int): (r: int)
    ensures nome !in NomesCategorias(s) ==> r == padrao
    ensures nome in NomesCategorias(s) ==> exists c | c in s :: c.nome == nome && c.id == r
  {
    match BuscarCategoriaPorNome(s, nome)
    case None => padrao
    case Some(c) => c.id
  }

  function Abs(v: int): (r: int)
    ensures r >= 0 && (r == v || r == -v)
  {
    if v < 0 then -v else v
  }

  /**
    The stored debit (-|v| through the trigger) is |v| away from zero in the
    direction its kind allows; the stored credit likewise. Each leg is flipped
    only by the "wrong" kind: the debit by an income category, the credit by an
    expense category.
  */
  lemma PernasDaTransferencia(tipoSaida: Option<Tipo>, tipoEntrada: Option<Tipo>, v: int)
    ensures ValorNormalizado(tipoSaida, -Abs(v)) == (if tipoSaida == Some(Receita) then Abs(v) else -Abs(v))
    ensures ValorNormalizado(tipoEntrada, Abs(v)) == (if tipoEntrada == Some(Despesa) then -Abs(v) else Abs(v))
  {
  }

  /**
    The two stored legs cancel out exactly when the amount is 0 or both legs are
    flipped alike: with the credit booked on an expense category and the debit on
    a category that is not income, money disappears.
  */
  lemma TransferenciaSomaZero(tipoSaida: Option<Tipo>, tipoEntrada: Option<Tipo>, v: int)
    ensures ValorNormalizado(tipoSaida, -Abs(v)) + ValorNormalizado(tipoEntrada, Abs(v)) == 0
      <==> v == 0 || ((tipoSaida == Some(Receita)) == (tipoEntrada == Some(Despesa)))
  {
    PernasDaTransferencia(tipoSaida, tipoEntrada, v);
  }

  // ---------------------------------------------------------------------------
  // criar_procedures_e_triggers: the name handed to DROP ... IF EXISTS

  /** `sql.split(" ")[2].split("(")[0]`; None stands for the IndexError the loop swallows. */
  function NomeProcedimento(sql: string): (r: Option<string>)
    ensures r.Some? <==> |Dividir(sql, ' ')| >= 3
    ensures r.Some? ==> ' ' !in r.value && '(' !in r.value
  {
    var pedacos := Dividir(sql, ' ');
    if |pedacos| < 3 then None else Some(Dividir(pedacos[2], '(')[0])
  }

  /** `sql.split(" ")[2]`, as written for triggers. */
  function NomeGatilho(sql: string): (r: Option<string>)
    ensures r.Some? <==> |Dividir(sql, ' ')| >= 3
    ensures r.Some? ==> ' ' !in r.value
  {
    var pedacos := Dividir(sql, ' ');
    if |pedacos| < 3 then None else Some(pedacos[2])
  }

  /** The trigger name cut at its first line break as well. */
  function NomeGatilhoCorrigido(sql: string): (r: Option<string>)
    ensures r.Some? <==> |Dividir(sql, ' ')| >= 3
    ensures r.Some? ==> ' ' !in r.value && '\n' !in r.value
  {
    match NomeGatilho(sql)
    case None => None
    case Some(n) => Some(Dividir(n, '\n')[0])
  }

  /** The third space-separated token of "\nCREATE <kw> <resto>" is the first token of `resto`. */
  lemma TerceiroPedaco(kw: string, resto: string)
    requires ' ' !in kw
    ensures |Dividir("\nCREATE " + kw + " " + resto, ' ')| >= 3
    ensures Dividir("\nCREATE " + kw + " " + resto, ' ')[2] == Dividir(resto, ' ')[0]
  {
    var sql := "\nCREATE " + kw + " " + resto;
    assert sql == "\nCREATE" + [' '] + (kw + [' '] + resto);
    DividirNoSeparador("\nCREATE", kw + [' '] + resto, ' ');
    DividirNoSeparador(kw, resto, ' ');
  }

  /**
    The procedure statements start "\nCREATE PROCEDURE <name>(": the extraction
    gives the bare name.
  */
  lemma NomeProcedimentoExtraiNome(nome: string, resto: string)
    requires ' ' !in nome && '(' !in nome
    ensures NomeProcedimento("\nCREATE PROCEDURE " + nome + "(" + resto) == Some(nome)
  {
    var sql := "\nCREATE PROCEDURE " + nome + "(" + resto;
    assert sql == "\nCREATE " + "PROCEDURE" + " " + (nome + "(" + resto);
    TerceiroPedaco("PROCEDURE", nome + "(" + resto);
    DividirPrefixo(nome + "(", resto, ' ');
    var token := Dividir(nome + "(" + resto, ' ')[0];
    assert token == nome + [ '(' ] + Dividir(resto, ' ')[0];
    DividirNoSeparador(nome, Dividir(resto, ' ')[0], '(');
  }

  /**
    The trigger statements start "\nCREATE TRIGGER <name>\n<word> ...": the
    extracted token runs on into the next line, so it is never the trigger's name.
  */
  lemma NomeGatilhoLevaProximaLinha(nome: string, palavra: string, resto: string)
    requires ' ' !in nome && '\n' !in nome && ' ' !in palavra
    ensures NomeGatilho("\nCREATE TRIGGER " + nome + "\n" + palavra + " " + resto) == Some(nome + "\n" + palavra)
    ensures NomeGatilho("\nCREATE TRIGGER " + nome + "\n" + palavra + " " + resto) != Some(nome)
  {
    var sql := "\nCREATE TRIGGER " + nome + "\n" + palavra + " " + resto;
    assert sql == "\nCREATE " + "TRIGGER" + " " + (nome + "\n" + palavra + " " + resto);
    TerceiroPedaco("TRIGGER", nome + "\n" + palavra + " " + resto);
    assert nome + "\n" + palavra + " " + resto == (nome + "\n" + palavra) + [' '] + resto;
    DividirNoSeparador(nome + "\n" + palavra, resto, ' ');
    assert |nome + "\n" + palavra| > |nome|;
  }

  const GatilhoEmail: string := "tr_antes_atualizar_email_usuario"

  /** The statement of tr_antes_atualizar_email_usuario shows it: the DROP names "tr_antes_atualizar_email_usuario\nBEFORE". */
  lemma NomeGatilhoEmail(resto: string)
    ensures NomeGatilho("\nCREATE TRIGGER " + GatilhoEmail + "\n" + "BEFORE" + " " + resto) == Some(GatilhoEmail + "\n" + "BEFORE")
  {
    NomeGatilhoLevaProximaLinha(GatilhoEmail, "BEFORE", resto);
  }

  /** With the cut at the line break, every trigger statement yields its bare name. */
  lemma NomeGatilhoCorrigidoExtraiNome(nome: string, resto: string)
    requires ' ' !in nome && '\n' !in nome
    ensures NomeGatilhoCorrigido("\nCREATE TRIGGER " + nome + "\n" + resto) == Some(nome)
  {
    var sql := "\nCREATE TRIGGER " + nome + "\n" + resto;
    assert sql == "\nCREATE " + "TRIGGER" + " " + (nome + "\n" + resto);
    TerceiroPedaco("TRIGGER", nome + "\n" + resto);
    DividirPrefixo(nome + "\n", resto, ' ');
    var token := Dividir(nome + "\n" + resto, ' ')[0];
    assert token == nome + ['\n'] + Dividir(resto, ' ')[0];
    DividirNoSeparador(nome, Dividir(resto, ' ')[0], '\n');
  }
}
