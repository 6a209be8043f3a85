/**
  How each write of the store keeps the schema of database/models.py and the
  guarantees of the triggers (Modelos.Integro): one lemma per kind of row
  change, stated on the tables alone so that the methods of Sessao.Banco only
  have to establish the lemma's premises.
*/
module Invariantes {
  import opened Opcoes
  import opened Modelos
  import opened Procedimentos

  // ---------------------------------------------------------------------------
  // Projections of a table with one more row

  lemma DistintosMais<T>(s: seq<T>, x: T)
    requires Distintos(s) && x !in s
    ensures Distintos(s + [x])
  {
    forall i, j | 0 <= i < j < |s| + 1 ensures (s + [x])[i] != (s + [x])[j] {
      if j == |s| {
        assert (s + [x])[i] == s[i];
      }
    }
  }

  lemma IdsUsuariosMais(s: seq<Usuario>, u: Usuario)
    ensures IdsUsuarios(s + [u]) == IdsUsuarios(s) + [u.id]
    ensures Emails(s + [u]) == Emails(s) + [u.email]
  {
  }

  lemma IdsContasMais(s: seq<Conta>, c: Conta)
    ensures IdsContas(s + [c]) == IdsContas(s) + [c.id]
  {
  }

  lemma IdsCategoriasMais(s: seq<Categoria>, c: Categoria)
    ensures IdsCategorias(s + [c]) == IdsCategorias(s) + [c.id]
    ensures NomesCategorias(s + [c]) == NomesCategorias(s) + [c.nome]
  {
  }

  // ---------------------------------------------------------------------------
  // The UNIQUE check on an e-mail update and the "no cascade" check on a delete

  /** Some user other than the one at position i already holds e-mail e. */
  predicate EmailDeOutro(s: seq<Usuario>, i: int, e: string) {
    exists j | 0 <= j < |s| :: j != i && s[j].email == e
  }

  /** A transaction or an investment still points at the account. */
  predicate ContaReferenciada(t: Tabelas, id: int) {
    (exists x | x in t.transacoes :: x.conta == id) || (exists v | v in t.investimentos :: v.conta == id)
  }

  // ---------------------------------------------------------------------------
  // One lemma per write

  /** INSERT INTO usuarios with a fresh id and an e-mail nobody holds. */
  lemma NovoUsuarioIntegro(t: Tabelas, u: Usuario)
    requires Integro(t)
    requires u.id !in IdsUsuarios(t.usuarios) && u.email !in Emails(t.usuarios)
    ensures Integro(t.(usuarios := t.usuarios + [u]))
  {
    IdsUsuariosMais(t.usuarios, u);
    DistintosMais(IdsUsuarios(t.usuarios), u.id);
    DistintosMais(Emails(t.usuarios), u.email);
  }

  /** INSERT INTO contas with an id never handed out and an existing owner. */
  lemma NovaContaIntegra(t: Tabelas, c: Conta)
    requires Integro(t)
    requires c.id !in IdsContas(t.contas) && c.id !in IdsBackups(t.contasBackup)
    requires c.usuario in IdsUsuarios(t.usuarios)
    ensures Integro(t.(contas := t.contas + [c]))
  {
    IdsContasMais(t.contas, c);
    DistintosMais(IdsContas(t.contas), c.id);
    forall b | b in t.contasBackup ensures b.id != c.id {
      var k :| 0 <= k < |t.contasBackup| && t.contasBackup[k] == b;
      assert IdsBackups(t.contasBackup)[k] == b.id;
    }
  }

  /** INSERT INTO categorias with a fresh id, an unused name and a canonical kind. */
  lemma NovaCategoriaIntegra(t: Tabelas, c: Categoria)
    requires Integro(t)
    requires c.id !in IdsCategorias(t.categorias) && c.nome !in NomesCategorias(t.categorias)
    requires Canonico(c.tipo)
    ensures Integro(t.(categorias := t.categorias + [c]))
    ensures forall x | x in t.transacoes ::
      TipoDaCategoria(t.categorias + [c], x.categoria) == TipoDaCategoria(t.categorias, x.categoria)
  {
    IdsCategoriasMais(t.categorias, c);
    DistintosMais(IdsCategorias(t.categorias), c.id);
    DistintosMais(NomesCategorias(t.categorias), c.nome);
    forall x | x in t.transacoes
      ensures TipoDaCategoria(t.categorias + [c], x.categoria) == TipoDaCategoria(t.categorias, x.categoria)
    {
      BuscarCategoriaConcat(t.categorias, [c], x.categoria);
    }
  }

  /** INSERT INTO transacoes of a row whose keys exist and whose amount agrees with its category. */
  lemma NovaTransacaoIntegra(t: Tabelas, x: Transacao)
    requires Integro(t)
    requires x.id !in IdsTransacoes(t.transacoes)
    requires x.conta in IdsContas(t.contas) && x.categoria in IdsCategorias(t.categorias)
    requires SinalCoerente(TipoDaCategoria(t.categorias, x.categoria), x.valor)
    ensures Integro(t.(transacoes := t.transacoes + [x]))
  {
    assert IdsTransacoes(t.transacoes + [x]) == IdsTransacoes(t.transacoes) + [x.id];
    DistintosMais(IdsTransacoes(t.transacoes), x.id);
  }

  /** UPDATE usuarios SET email = e for the user at position i, when no other user holds e. */
  lemma NovoEmailIntegro(t: Tabelas, i: nat, e: string)
    requires Integro(t)
    requires i < |t.usuarios| && !EmailDeOutro(t.usuarios, i, e)
    ensures Integro(t.(usuarios := t.usuarios[i := t.usuarios[i].(email := e)]))
  {
    var s := t.usuarios;
    var s' := s[i := s[i].(email := e)];
    assert IdsUsuarios(s') == IdsUsuarios(s);
    forall j, k | 0 <= j < k < |s'| ensures Emails(s')[j] != Emails(s')[k] {
      if j != i && k != i {
        assert Emails(s)[j] != Emails(s)[k];
      }
    }
  }

  /** INSERT INTO log_atualizacao_usuarios with a fresh log id. */
  lemma NovoLogIntegro(t: Tabelas, l: LogEmail)
    requires Integro(t)
    requires l.id !in IdsLogs(t.logEmails)
    ensures Integro(t.(logEmails := t.logEmails + [l]))
  {
    assert IdsLogs(t.logEmails + [l]) == IdsLogs(t.logEmails) + [l.id];
    DistintosMais(IdsLogs(t.logEmails), l.id);
  }

  /** The ids left after removing the account at position i: all the others, still distinct. */
  lemma IdsSemConta(s: seq<Conta>, i: nat)
    requires i < |s| && Distintos(IdsContas(s))
    ensures Distintos(IdsContas(s[..i] + s[i + 1..]))
    ensures forall y :: y in IdsContas(s[..i] + s[i + 1..]) <==> y in IdsContas(s) && y != s[i].id
  {
    var s' := s[..i] + s[i + 1..];
    var ids, ids' := IdsContas(s), IdsContas(s');
    assert forall k | 0 <= k < |s'| :: ids'[k] == (if k < i then ids[k] else ids[k + 1]);
    forall j, k | 0 <= j < k < |s'| ensures ids'[j] != ids'[k] {
      var j0, k0 := if j < i then j else j + 1, if k < i then k else k + 1;
      assert ids'[j] == ids[j0] && ids'[k] == ids[k0] && j0 < k0;
    }
    forall k | 0 <= k < |s'| ensures ids'[k] != s[i].id {
      if k < i { assert ids[k] != ids[i]; } else { assert ids[i] != ids[k + 1]; }
    }
    forall y | y in ids && y != s[i].id ensures y in ids' {
      var k :| 0 <= k < |ids| && ids[k] == y;
      if k < i { assert ids'[k] == y; } else { assert ids'[k - 1] == y; }
    }
    forall y | y in ids' ensures y in ids {
      var k :| 0 <= k < |ids'| && ids'[k] == y;
      if k < i { assert ids[k] == y; } else { assert ids[k + 1] == y; }
    }
  }

  /**
    DELETE FROM contas of an account nothing references. Its id is then neither
    live nor among the backups, so the trigger's backup row may take it.
  */
  lemma ContaRemovidaIntegra(t: Tabelas, i: nat)
    requires Integro(t)
    requires i < |t.contas| && !ContaReferenciada(t, t.contas[i].id)
    ensures Integro(t.(contas := t.contas[..i] + t.contas[i + 1..]))
    ensures t.contas[i].id !in IdsContas(t.contas[..i] + t.contas[i + 1..])
    ensures t.contas[i].id !in IdsBackups(t.contasBackup)
  {
    var s := t.contas;
    var ids' := IdsContas(s[..i] + s[i + 1..]);
    IdsSemConta(s, i);
    assert IdsContas(s)[i] == s[i].id;
    assert s[i].id in IdsContas(s);
    assert s[i].id !in ids';
    assert forall x | x in t.transacoes :: x.conta in ids';
    assert forall v | v in t.investimentos :: v.conta in ids';
    assert forall c | c in t.contasBackup :: c.id !in ids';
    forall k | 0 <= k < |t.contasBackup| ensures IdsBackups(t.contasBackup)[k] != s[i].id {
      assert t.contasBackup[k] in t.contasBackup;
    }
  }

  /** INSERT INTO contas_backup of a row whose id is neither live nor backed up already. */
  lemma NovoBackupIntegro(t: Tabelas, b: ContaBackup)
    requires Integro(t)
    requires b.id !in IdsContas(t.contas) && b.id !in IdsBackups(t.contasBackup)
    ensures Integro(t.(contasBackup := t.contasBackup + [b]))
  {
    assert IdsBackups(t.contasBackup + [b]) == IdsBackups(t.contasBackup) + [b.id];
    DistintosMais(IdsBackups(t.contasBackup), b.id);
  }

  /** sp_atualizar_saldo_meta only moves valor_atual, which no constraint mentions. */
  lemma MetaAtualizadaIntegra(t: Tabelas, id: int, v: Centavos)
    requires Integro(t)
    ensures Integro(t.(metas := SomarNaMeta(t.metas, id, v)))
  {
    var m' := SomarNaMeta(t.metas, id, v);
    assert IdsMetas(m') == IdsMetas(t.metas);
    forall m | m in m' ensures m.usuario in IdsUsuarios(t.usuarios) {
      var k :| 0 <= k < |m'| && m'[k] == m;
      assert t.metas[k] in t.metas;
    }
  }

  /** INSERT INTO metas with a fresh id and an existing owner. */
  lemma NovaMetaIntegra(t: Tabelas, m: Meta)
    requires Integro(t)
    requires m.id !in IdsMetas(t.metas) && m.usuario in IdsUsuarios(t.usuarios)
    ensures Integro(t.(metas := t.metas + [m]))
  {
    assert IdsMetas(t.metas + [m]) == IdsMetas(t.metas) + [m.id];
    DistintosMais(IdsMetas(t.metas), m.id);
  }
}
