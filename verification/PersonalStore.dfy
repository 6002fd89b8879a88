/** Personal rows and their revisions: plan the whole batch, then write it in place. */
module PersonalStore {
  import opened Common
  import P = Personal
  import opened PersonalRows
  import opened Personal

  class PersonalState {
    var rows: map<Target, Row>
    var history: seq<Revision>
    var applied: set<Id>
    var events: map<Id, Time>
    var others: set<Ref>

    function Tables(): Db
      reads this
    {
      Db(rows, history, applied, events, others)
    }

    /** Collects findings and planned changes; nothing is written. */
    method PlanBatch(ops: seq<Operation>, now: Time) returns (errors: seq<string>, plans: seq<Plan>)
      requires AllCoherent(ops)
      ensures errors == PlanAll(Tables(), ops, now).errors && plans == PlanAll(Tables(), ops, now).plans
    {
      hide PlanOne, Touches, Coherent, NewEntity;
      errors, plans := [], [];
      var touched: set<Target>, entities: set<Id> := {}, {};
      for i := 0 to |ops|
        invariant Planning(errors, plans, touched, entities) == PlanAll(Tables(), ops[..i], now)
      {
        assert ops[..i + 1][..i] == ops[..i];
        ghost var before := Planning(errors, plans, touched, entities);
        var targets := Touches(ops[i]);
        for j := 0 to |targets|
          invariant Touch(Planning(errors, plans, touched, entities), targets[j..]) == Touch(before, targets)
          invariant plans == before.plans
        {
          errors := errors + Note(targets[j] in touched, "duplicate_personal_target");
          touched := touched + {targets[j]};
          assert targets[j..][1..] == targets[j + 1..];
        }
        var planned := PlanOne(Tables(), ops[i], now);
        var entity := NewEntity(ops[i]);
        errors := errors + planned.errors + Note(entity.Some? && entity.value in entities, "relationship_already_exists");
        if entity.Some? {
          entities := entities + {entity.value};
        }
        if planned.changes != [] {
          plans := plans + [Plan(ops[i].id, planned.changes)];
        }
      }
      assert ops[..|ops|] == ops;
    }

    /** Assigns each change to the row as it is, and appends its revision. */
    method WriteChanges(changes: seq<Change>, operation: Id)
      modifies `rows, `history
      ensures Tables() == P.WriteChanges(old(Tables()), changes, operation)
    {
      hide Written;
      for i := 0 to |changes|
        invariant Tables() == P.WriteChanges(old(Tables()), changes[..i], operation)
      {
        assert changes[..i + 1][..i] == changes[..i];
        var c := changes[i];
        var after := Written(rows, c);
        rows := rows[c.target := after];
        history := history + [Revision(c.target, Number(after), if i == 0 then Some(operation) else None, c.Before(), after)];
      }
      assert changes[..|changes|] == changes;
    }

    method ApplyOperations(ops: seq<Operation>, now: Time, turn: Turn) returns (errors: seq<string>)
      requires AllCoherent(ops)
      modifies this
      ensures match Apply(old(Tables()), ops, now, turn)
        case Ok(after) => |errors| == 0 && Tables() == after
        case Err(found) => errors == found && |errors| != 0 && Tables() == old(Tables())
    {
      hide PlanAll, BatchErrors, P.AllCoherent, P.WriteChanges;
      if |ops| > 64 {
        return ["too_many_operations"];
      }
      var found, plans := PlanBatch(ops, now);
      errors := BatchErrors(Tables(), ops, turn) + found;
      if |errors| != 0 {
        return;
      }
      if !turn.decided || !turn.active || turn.recorded != ops {
        return ["unrecorded_personal_decision"];
      }
      for i := 0 to |plans|
        invariant Tables() == WriteAll(old(Tables()), plans[..i])
      {
        assert plans[..i + 1][..i] == plans[..i];
        applied := applied + {plans[i].operation};
        WriteChanges(plans[i].changes, plans[i].operation);
      }
      assert plans[..|plans|] == plans;
    }
  }
}
