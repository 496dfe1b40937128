/** The Macro and Micro AAO factories: thin front ends that forward the
    external caller to the ledger's creation entry point, so the caller
    (not the factory) owns the new AAO. The Micro factory reverts with the
    parent-check reasons before anything is created. */
module AAOFactory {
  import opened Common
  import opened AAOState
  import opened AAOLedger

  class MacroAAOFactory {
    const ledger: AAOLedger

    constructor (ledger: AAOLedger)
      ensures this.ledger == ledger
    {
      this.ledger := ledger;
    }

    /** `createMacroAAO(topic, duration)`: a new active Macro AAO owned by
        the caller, with id equal to the previous total count. */
    method CreateMacroAAO(caller: Address, topic: string, duration: nat) returns (id: AaoId)
      requires ledger.Valid()
      modifies ledger
      ensures ledger.Valid() && Evolves(old(ledger.State()), ledger.State())
      ensures id == |old(ledger.aaos)| && |ledger.aaos| == id + 1
      ensures ledger.aaos[id] == AAO(topic, caller, duration, true, true, None)
      ensures ledger.log == old(ledger.log) + [AAOCreated(id, caller, topic, true)]
      ensures ledger.State() == AfterCreate(old(ledger.State()), caller, topic, duration, None)
    {
      id := ledger.CreateAAO(caller, topic, duration);
    }
  }

  class MicroAAOFactory {
    const ledger: AAOLedger
    const macroFactory: MacroAAOFactory

    constructor (ledger: AAOLedger, macroFactory: MacroAAOFactory)
      ensures this.ledger == ledger && this.macroFactory == macroFactory
    {
      this.ledger := ledger;
      this.macroFactory := macroFactory;
    }

    /** `createMicroAAO(topic, duration, macroId)`: reverts with "Parent
        Macro AAO does not exist" for an unknown parent and with "Parent
        AAO must be a Macro AAO" for a Micro parent; otherwise a new active
        Micro AAO owned by the caller and linked to `macroId`. */
    method CreateMicroAAO(caller: Address, topic: string, duration: nat, macroId: AaoId)
      returns (r: Result<AaoId, string>)
      requires ledger.Valid()
      modifies ledger
      ensures ledger.Valid() && Evolves(old(ledger.State()), ledger.State())
      ensures macroId >= |old(ledger.aaos)| ==>
        r == Failure(PARENT_NOT_FOUND_REASON) && ledger.State() == old(ledger.State())
      ensures macroId < |old(ledger.aaos)| && !old(ledger.aaos)[macroId].isMacro ==>
        r == Failure(PARENT_NOT_MACRO_REASON) && ledger.State() == old(ledger.State())
      ensures macroId < |old(ledger.aaos)| && old(ledger.aaos)[macroId].isMacro ==>
        && r == Success(|old(ledger.aaos)|)
        && ledger.State() == AfterCreate(old(ledger.State()), caller, topic, duration, Some(macroId))
        && ledger.aaos[r.value] == AAO(topic, caller, duration, true, false, Some(macroId))
        && ledger.GetMacroAAOId(r.value) == Success(macroId)
    {
      var created := ledger.CreateAAOFor(caller, topic, duration, Some(macroId));
      match created
      case Success(id) =>
        r := Success(id);
      case Failure(e) =>
        r := Failure(if e == ParentNotFound then PARENT_NOT_FOUND_REASON else PARENT_NOT_MACRO_REASON);
    }
  }
}
