/** What the survey promises about the record it submits: a fixed schema,
    follow-ups stored only under their whole chain of reveal conditions,
    independent branches, and top-level answers copied as given. */
module Properties {
  import opened Wrappers
  import opened Catalog
  import opened Form

  // ---------------------------------------------------------------------
  // Schema
  // ---------------------------------------------------------------------

  /** The schema has 25 distinct keys, the submission time first. */
  lemma SchemaShape()
    ensures |Schema| == 25 && Schema[0] == "timestamp"
    ensures forall i, j :: 0 <= i < j < |Schema| ==> Schema[i] != Schema[j]
  {
  }

  /** Distinct keys let a key be looked up at its position. */
  lemma {:induction false} GetAt(row: Row, i: nat)
    requires i < |row|
    requires forall j, k :: 0 <= j < k < |row| ==> row[j].0 != row[k].0
    ensures row[i].0 in Keys(row)
    ensures Get(row, row[i].0) == row[i].1
  {
    assert Keys(row)[i] == row[i].0;
    if i > 0 {
      GetAt(row[1..], i - 1);
      assert row[1..][i - 1] == row[i];
    }
  }

  /** Every row has the 25 keys of the schema in its order, and looking a
      key up gives the record's value for it. */
  lemma RowShape(r: Record, q: Question)
    ensures Keys(ToRow(r)) == Schema
    ensures Get(ToRow(r), "timestamp") == Some(Time(r.timestamp))
    ensures Get(ToRow(r), KeyOf(q)) == Column(r, q)
  {
    var row := ToRow(r);
    SchemaShape();
    GetAt(row, 0);
    GetAt(row, IndexOf(q) + 1);
  }

  // ---------------------------------------------------------------------
  // The assault branch
  // ---------------------------------------------------------------------

  /** Unless the shopkeeper was assaulted, all eight assault follow-ups are
      "not applicable"; when they were, the five asked directly hold their
      answers. */
  lemma AssaultFollowUpsNeedVictim(a: Answers, now: Timestamp)
    ensures a.victimaAsalto != "Sí" ==>
      var r := Submit(a, now);
      && r.movilizacionDelincuentes == None && r.usoArmas == None
      && r.tipoArmaEspecificado == None && r.horaAsalto == None
      && r.principalesRobado == None && r.otrasPertenenciasEspecificadas == None
      && r.denunciaPresentada == None && r.razonNoDenuncia == None
    ensures a.victimaAsalto == "Sí" ==>
      var r := Submit(a, now);
      && r.movilizacionDelincuentes == Some(a.movilizacion) && r.usoArmas == Some(a.usoArmas)
      && r.horaAsalto == Some(a.horaAsalto) && r.principalesRobado == Some(a.principalesRobado)
      && r.denunciaPresentada == Some(a.denuncia)
  {
  }

  /** The weapon type is stored exactly when the shopkeeper was assaulted and
      weapons were used; it is then the text typed in. */
  lemma WeaponTypeNeedsBothAncestors(a: Answers, now: Timestamp)
    ensures Submit(a, now).tipoArmaEspecificado ==
      if a.victimaAsalto == "Sí" && a.usoArmas == "Sí" then Some(a.tipoArma) else None
  {
  }

  /** The other belongings are stored exactly when the shopkeeper was
      assaulted and "other belongings of customers" were mainly stolen. */
  lemma OtherBelongingsNeedBothAncestors(a: Answers, now: Timestamp)
    ensures Submit(a, now).otrasPertenenciasEspecificadas ==
      if a.victimaAsalto == "Sí" && a.principalesRobado == "Otras pertenencias de clientes"
      then Some(a.otrasPertenencias) else None
  {
  }

  /** The reason for not reporting is stored exactly when the shopkeeper was
      assaulted and did not report it. */
  lemma NoReportReasonNeedsBothAncestors(a: Answers, now: Timestamp)
    ensures Submit(a, now).razonNoDenuncia ==
      if a.victimaAsalto == "Sí" && a.denuncia == "No" then Some(a.razonNoDenuncia) else None
  {
  }

  // ---------------------------------------------------------------------
  // The vehicle branch, police presence, business type, security scale
  // ---------------------------------------------------------------------

  /** The vehicle-theft follow-ups are stored exactly when vehicles were
      stolen nearby, and depend on nothing but the three vehicle answers:
      whatever the assault answers are, two records agree on them. */
  lemma VehicleBranchIndependent(a: Answers, b: Answers, now: Timestamp)
    requires a.roboVehiculos == b.roboVehiculos
    requires a.tipoRoboVehiculo == b.tipoRoboVehiculo && a.facilitaRobos == b.facilitaRobos
    ensures Submit(a, now).tipoRoboVehiculo == Submit(b, now).tipoRoboVehiculo
    ensures Submit(a, now).facilitaRobos == Submit(b, now).facilitaRobos
    ensures Submit(a, now).tipoRoboVehiculo ==
      if a.roboVehiculos == "Sí" then Some(a.tipoRoboVehiculo) else None
    ensures Submit(a, now).facilitaRobos ==
      if a.roboVehiculos == "Sí" then Some(a.facilitaRobos) else None
  {
  }

  /** The reason for "partially" is stored only for that answer. */
  lemma PartialReasonOnlyWhenPartial(a: Answers, now: Timestamp)
    ensures Submit(a, now).razonParcial ==
      if a.presenciaPreviene == "Parcialmente" then Some(a.razonParcial) else None
  {
  }

  /** The business type is stored as chosen; the "other" text beside it is
      the typed text for "Otro" and the empty string, never None, otherwise. */
  lemma OtherBusinessBesideType(a: Answers, now: Timestamp)
    ensures Submit(a, now).tipoNegocio == a.tipoNegocio
    ensures Submit(a, now).otroNegocioEspecificado ==
      if a.tipoNegocio == "Otro" then a.otroNegocio else ""
  {
  }

  /** The record holds the scale key the shopkeeper picked, an integer from 1
      to 5, not the label the radio displays for it. */
  lemma SecurityScaleStoresKey(a: Answers, now: Timestamp)
    requires WellFormed(a)
    ensures Submit(a, now).sentimientoSeguridad == a.seguridadLocal
    ensures 1 <= a.seguridadLocal <= 5 && a.seguridadLocal in EscalaSeguridad
  {
    assert Active(SentimientoSeguridad, a);
    assert Fits(SentimientoSeguridad, a);
  }

  /** When no answer opens a branch, every follow-up is "not applicable"
      except the "other business" text, which is the empty string. */
  lemma NoBranchTaken(a: Answers, now: Timestamp, q: Question)
    requires a.tipoNegocio != "Otro" && a.victimaAsalto != "Sí"
    requires a.roboVehiculos != "Sí" && a.presenciaPreviene != "Parcialmente"
    requires GuardOf(q).When?
    ensures Column(Submit(a, now), q) == if q == OtroNegocioEspecificado then Some(Str("")) else None
  {
  }

  // ---------------------------------------------------------------------
  // The record against the catalog
  // ---------------------------------------------------------------------

  /** Every always-shown question is copied into the record unchanged. */
  lemma TopLevelCopiedVerbatim(a: Answers, now: Timestamp, q: Question)
    requires GuardOf(q).Always?
    ensures Column(Submit(a, now), q) == Some(Answer(q, a))
  {
  }

  /** Looking a question's key up in the submitted row gives its catalog
      value, and the time key gives the submission time. */
  lemma SubmittedRow(a: Answers, now: Timestamp, q: Question)
    ensures Keys(ToRow(Submit(a, now))) == Schema
    ensures Get(ToRow(Submit(a, now)), "timestamp") == Some(Time(now))
    ensures Get(ToRow(Submit(a, now)), KeyOf(q)) == Stored(q, a)
  {
    RowShape(Submit(a, now), q);
  }

  /** A follow-up is shown exactly when every reveal condition along its
      chain of ancestors holds. */
  lemma {:induction false} ActiveIffChain(q: Question, a: Answers)
    ensures Active(q, a) <==> forall x :: x in Chain(q) ==> Revealed(x, a)
    decreases Depth(q)
  {
    match GuardOf(q)
    case Always =>
      assert Chain(q) == [q];
    case When(p, v) =>
      ParentIsShallower(q);
      ActiveIffChain(p, a);
      assert Chain(q) == [q] + Chain(p);
      assert Revealed(q, a) == (Answer(p, a) == Str(v));
      assert (forall x :: x in Chain(q) ==> Revealed(x, a))
        <==> Revealed(q, a) && (forall x :: x in Chain(p) ==> Revealed(x, a));
  }

  /** Whether a question is shown, and what is stored for it, depends only on
      the answers along its own chain. */
  lemma {:induction false} StoredDependsOnChain(q: Question, a: Answers, b: Answers)
    requires forall x :: x in Chain(q) ==> Answer(x, a) == Answer(x, b)
    ensures Active(q, a) == Active(q, b)
    ensures Stored(q, a) == Stored(q, b)
    decreases Depth(q)
  {
    match GuardOf(q)
    case Always =>
      assert Chain(q) == [q];
    case When(p, v) =>
      ParentIsShallower(q);
      assert Chain(q) == [q] + Chain(p);
      assert p in Chain(p) by { ChainStartsWithSelf(p); }
      StoredDependsOnChain(p, a, b);
  }

  lemma ChainStartsWithSelf(q: Question)
    ensures |Chain(q)| > 0 && Chain(q)[0] == q
  {
  }

  /** Whether a question is shown depends only on the answers of shown
      questions. */
  lemma {:induction false} ActiveDependsOnShownAnswers(q: Question, a: Answers, b: Answers)
    requires forall x :: Active(x, a) ==> Answer(x, a) == Answer(x, b)
    ensures Active(q, a) == Active(q, b)
    decreases Depth(q)
  {
    match GuardOf(q)
    case Always =>
    case When(p, v) =>
      ParentIsShallower(q);
      ActiveDependsOnShownAnswers(p, a, b);
  }

  /** Answers left in widgets that are not shown never reach the record:
      two answer sets that agree on what is shown write the same row. */
  lemma HiddenAnswersNeverLeak(a: Answers, b: Answers, now: Timestamp)
    requires forall x :: Active(x, a) ==> Answer(x, a) == Answer(x, b)
    ensures ToRow(Submit(a, now)) == ToRow(Submit(b, now))
  {
    var ra, rb := ToRow(Submit(a, now)), ToRow(Submit(b, now));
    forall i | 0 <= i < |ra| ensures ra[i] == rb[i] {
      if i > 0 {
        var q := Questions[i - 1];
        ActiveDependsOnShownAnswers(q, a, b);
        assert Column(Submit(a, now), q) == Stored(q, a);
        assert Column(Submit(b, now), q) == Stored(q, b);
      }
    }
  }

  /** Each stored answer to a closed question is one of its options. */
  lemma ClosedAnswersFromOptions(a: Answers, now: Timestamp, q: Question)
    requires WellFormed(a)
    requires KindOf(q).Choice?
    ensures Column(Submit(a, now), q).Some? ==>
      Column(Submit(a, now), q).value.Str? && Column(Submit(a, now), q).value.s in KindOf(q).options
  {
    if Column(Submit(a, now), q).Some? {
      assert Active(q, a);
      assert Fits(q, a);
    }
  }
}
