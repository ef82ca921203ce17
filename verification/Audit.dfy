/**
 Who maintains the audit columns.

 MySQL stores what the statement says. PostgreSQL and Kingbase run the row trigger `app_audit_row`
 before every write, which overrides what the statement says with the transaction's actor and the
 statement's time.
 */
module AuditTrail {
  import opened Records
  import opened Text

  datatype Dialect = Explicit | Triggered

  datatype Operation = Insert | Update | Delete

  /** A transaction as a statement sees it: `app.actor_id` and `statement_timestamp()`. */
  datatype Session = Session(dialect: Dialect, actor: string, at: int)

  datatype TriggerError = MissingActor | PhysicalDelete

  /** The test `setAuditActor` makes before any statement of a transaction runs. */
  predicate HasActor(actor: string)
  {
    exists i :: 0 <= i < |actor| && !IsSpace(actor[i])
  }

  /** An actor is one with a visible character. */
  lemma ActorsAreNotBlank(actor: string)
    ensures HasActor(actor) <==> Trim(actor) != ""
  {
    TrimIsEmptyOnBlank(actor);
  }

  function TriggerInsert(tx: Session): Audit
  {
    Audit(1, tx.at, tx.actor, tx.at, tx.actor, None, None)
  }

  function TriggerUpdate(tx: Session, prior: Audit, given: Audit): Audit
  {
    var stamped := Audit(prior.version + 1, prior.createdAt, prior.createdBy, tx.at, tx.actor, prior.deletedAt,
        prior.deletedBy);
    match (prior.deletedAt, given.deletedAt)
    case (None, Some(_)) => stamped.(deletedAt := Some(tx.at), deletedBy := Some(tx.actor))
    case (Some(_), None) => stamped.(deletedAt := None, deletedBy := None)
    case _ => stamped
  }

  /** The trigger itself, assigning the fields of NEW one at a time. */
  method AppAuditRow(tx: Session, op: Operation, prior: Audit, given: Audit) returns (row: Result<Audit, TriggerError>)
    ensures row.Err? <==> tx.actor == "" || op.Delete?
    ensures tx.actor == "" ==> row == Err(MissingActor)
    ensures row.Ok? && op.Insert? ==> row.value == TriggerInsert(tx)
    ensures row.Ok? && op.Update? ==> row.value == TriggerUpdate(tx, prior, given)
    ensures row.Ok? && op.Insert? ==> row.value == Audit(1, tx.at, tx.actor, tx.at, tx.actor, None, None)
    ensures row.Ok? && op.Update? ==>
      && row.value.version == prior.version + 1 && row.value.updatedAt == tx.at && row.value.updatedBy == tx.actor
      && row.value.createdAt == prior.createdAt && row.value.createdBy == prior.createdBy
    ensures row.Ok? && op.Update? && prior.deletedAt == None && given.deletedAt != None ==>
      row.value.deletedAt == Some(tx.at) && row.value.deletedBy == Some(tx.actor)
    ensures row.Ok? && op.Update? && prior.deletedAt != None && given.deletedAt == None ==>
      row.value.deletedAt == None && row.value.deletedBy == None
    ensures row.Ok? && op.Update? && (prior.deletedAt == None <==> given.deletedAt == None) ==>
      row.value.deletedAt == prior.deletedAt && row.value.deletedBy == prior.deletedBy
  {
    if tx.actor == "" {
      return Err(MissingActor);
    }
    var next := given;
    if op == Insert {
      next := next.(createdAt := tx.at);
      next := next.(updatedAt := next.createdAt);
      next := next.(createdBy := tx.actor, updatedBy := tx.actor, version := 1);
      next := next.(deletedAt := None, deletedBy := None);
      return Ok(next);
    }
    if op == Update {
      next := next.(createdAt := prior.createdAt, createdBy := prior.createdBy);
      next := next.(updatedAt := tx.at, updatedBy := tx.actor, version := prior.version + 1);
      if prior.deletedAt == None && next.deletedAt != None {
        next := next.(deletedAt := Some(tx.at), deletedBy := Some(tx.actor));
      } else if prior.deletedAt != None && next.deletedAt == None {
        next := next.(deletedBy := None);
      } else {
        next := next.(deletedAt := prior.deletedAt, deletedBy := prior.deletedBy);
      }
      return Ok(next);
    }
    return Err(PhysicalDelete);
  }

  /** The audit columns of an inserted row. */
  function InsertAudit(tx: Session, given: Audit): Audit
  {
    if tx.dialect == Explicit then given else TriggerInsert(tx)
  }

  /** The audit columns of an updated row, given what the statement assigned. */
  function UpdateAudit(tx: Session, prior: Audit, given: Audit): Audit
  {
    if tx.dialect == Explicit then given else TriggerUpdate(tx, prior, given)
  }

  /** Equal up to the four audit timestamps. */
  ghost predicate SameAudit(a: Audit, b: Audit)
  {
    && a.version == b.version && a.createdBy == b.createdBy && a.updatedBy == b.updatedBy
    && (a.deletedAt.None? <==> b.deletedAt.None?) && a.deletedBy == b.deletedBy
  }

  /** What a dialect stores: the statement's own columns, or the trigger's. */
  lemma AuditOnColumns(tx: Session, prior: Audit, given: Audit)
    ensures tx.dialect == Explicit ==> InsertAudit(tx, given) == given && UpdateAudit(tx, prior, given) == given
    ensures tx.dialect == Triggered ==> InsertAudit(tx, given) == Audit(1, tx.at, tx.actor, tx.at, tx.actor, None, None)
    ensures tx.dialect == Triggered ==>
      var row := UpdateAudit(tx, prior, given);
      && row.version == prior.version + 1 && row.updatedAt == tx.at && row.updatedBy == tx.actor
      && row.createdAt == prior.createdAt && row.createdBy == prior.createdBy
      && (prior.deletedAt == None && given.deletedAt != None ==>
            row.deletedAt == Some(tx.at) && row.deletedBy == Some(tx.actor))
      && (prior.deletedAt != None && given.deletedAt == None ==> row.deletedAt == None && row.deletedBy == None)
      && ((prior.deletedAt == None <==> given.deletedAt == None) ==>
            row.deletedAt == prior.deletedAt && row.deletedBy == prior.deletedBy)
  {
  }

  lemma SameAuditOnColumns(a: Audit, b: Audit)
    ensures SameAudit(a, b) ==>
      a.(createdAt := 0, updatedAt := 0, deletedAt := None) == b.(createdAt := 0, updatedAt := 0, deletedAt := None)
    ensures SameAudit(a, b) ==> (a.deletedAt == None <==> b.deletedAt == None)
  {
  }
}
