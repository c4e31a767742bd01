/** Properties of the distribution engine that relate several operations or
    hold of every stored record. */
module DetalleProperties {
  import opened Results
  import opened Monthly
  import opened Detalles
  import opened DetalleService
  import DetalleMapper

  /** Every month of a record that satisfies the sum-to-100 rule lies in [0, 100]. */
  lemma RecordMonthsInRange(e: Detalle)
    requires SumsToHundred(e)
    ensures forall i | 0 <= i < 12 :: e.months[i].None? || 0.0 <= e.months[i].value <= Hundred
  {
    MonthsWithinPercentRange(e.months);
  }

  /** A successful create stores a record whose total is 100.00, whose months add
      up to it and each lie in [0, 100]. */
  lemma CreatedRecordInRange(k: OwnerKind, s: Store, owners: set<int>, dto: Option<DetalleDto>)
    requires Create(k, s, owners, dto).0.Success?
    ensures var e := Create(k, s, owners, dto).1.rows[s.nextId];
      && e.total == Some(Hundred) && Sum(e.months) == Hundred
      && forall i | 0 <= i < 12 :: e.months[i].None? || 0.0 <= e.months[i].value <= Hundred
  {
    RecordMonthsInRange(Created(s, dto.value));
  }

  /** A successful update stores a record whose total is 100.00, whose months add
      up to it and each lie in [0, 100]. */
  lemma UpdatedRecordInRange(k: OwnerKind, s: Store, owners: set<int>, id: Option<int>, dto: Option<DetalleDto>)
    requires Update(k, s, owners, id, dto).0.Success?
    ensures id.Some? && id.value in Update(k, s, owners, id, dto).1.rows
    ensures var e := Update(k, s, owners, id, dto).1.rows[id.value];
      && e.total == Some(Hundred) && Sum(e.months) == Hundred
      && forall i | 0 <= i < 12 :: e.months[i].None? || 0.0 <= e.months[i].value <= Hundred
  {
    RecordMonthsInRange(Updated(s.rows[id.value], dto.value));
  }

  /** create keeps the store invariant. */
  lemma CreateKeepsValid(k: OwnerKind, s: Store, owners: set<int>, dto: Option<DetalleDto>)
    requires Valid(s)
    ensures Valid(Create(k, s, owners, dto).1)
  {
  }

  /** update keeps the store invariant. */
  lemma UpdateKeepsValid(k: OwnerKind, s: Store, owners: set<int>, id: Option<int>, dto: Option<DetalleDto>)
    requires Valid(s)
    ensures Valid(Update(k, s, owners, id, dto).1)
  {
  }

  /** deleteById keeps the store invariant. */
  lemma DeleteKeepsValid(k: OwnerKind, s: Store, id: Option<int>)
    requires Valid(s)
    ensures Valid(DeleteById(k, s, id).1)
  {
  }

  /** In a valid store, create never overwrites an existing record: the new key
      was free and every old record is still there, unchanged. */
  lemma CreateOnlyAdds(k: OwnerKind, s: Store, owners: set<int>, dto: Option<DetalleDto>)
    requires Valid(s)
    requires Create(k, s, owners, dto).0.Success?
    ensures s.nextId !in s.rows
    ensures forall key | key in s.rows :: Create(k, s, owners, dto).1.rows[key] == s.rows[key]
  {
  }

  /** Reading back a created record by the id create returned gives the record
      create returned, with the input's months and a total of 100.00. */
  lemma CreateThenFind(k: OwnerKind, s: Store, owners: set<int>, dto: Option<DetalleDto>)
    requires Valid(s)
    requires Create(k, s, owners, dto).0.Success?
    ensures var created := Create(k, s, owners, dto).0.value;
      && created.id == Some(s.nextId)
      && FindById(k, Create(k, s, owners, dto).1, created.id) == Success(created)
      && created.months == dto.value.months
      && created.total == Some(Hundred)
  {
  }

  /** After a successful delete the id reads as not found, and deleting it again
      fails without changing the store. */
  lemma DeleteThenFind(k: OwnerKind, s: Store, id: Option<int>)
    requires DeleteById(k, s, id).0.Success?
    ensures FindById(k, DeleteById(k, s, id).1, id) == Failure(NotFound(k.EntityName()))
    ensures DeleteById(k, DeleteById(k, s, id).1, id) == (Failure(NotFound(k.EntityName())), DeleteById(k, s, id).1)
  {
  }

  /** Months summing to 100.00, ten months at 10.00 and two left at 0.00. */
  const EvenMonths: Months :=
    [Some(10.0), Some(10.0), Some(10.0), Some(10.0), Some(10.0), Some(10.0),
     Some(10.0), Some(10.0), Some(10.0), Some(10.0), Some(0.0), Some(0.0)]

  /** The same months with enero raised to 20.00: they sum to 110.00. */
  const OverMonths: Months :=
    [Some(20.0), Some(10.0), Some(10.0), Some(10.0), Some(10.0), Some(10.0),
     Some(10.0), Some(10.0), Some(10.0), Some(10.0), Some(0.0), Some(0.0)]

  /** A cost-center record is created from EvenMonths with total 100.00; updating
      it with OverMonths is rejected under "suma" and the stored record stays as
      created. */
  lemma CostCenterScenario(owner: int)
    requires owner > 0
    ensures var s0 := Store(map[], 1);
      var dto := DetalleDto(None, Some(owner), EvenMonths, Some(Hundred));
      var (created, s1) := Create(CentroGestorKind, s0, {owner}, Some(dto));
      && created == Success(DetalleDto(Some(1), Some(owner), EvenMonths, Some(Hundred)))
      && Update(CentroGestorKind, s1, {owner}, Some(1), Some(dto.(months := OverMonths)))
         == (Failure(Invalid("suma")), s1)
  {
    SumIsChainedSum(EvenMonths);
    SumIsChainedSum(OverMonths);
  }
}
