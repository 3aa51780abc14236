/** The provider registry in the form the pallet has: storage items updated in place, each dispatchable proved against
    its function in `ProviderRegistry`. */
module RegistryPallet {
  import opened Prelude
  import opened Balances
  import opened ProviderRegistry
  import opened RegistryRuns

  class Pallet {
    const config: Config

    var ledger: Ledger
    var requests: map<Account, Request>
    var msps: Book
    var bsps: Book
    var totalCapacity: nat
    var privileged: set<ProviderId>
    var insolvent: set<(Role, ProviderId)>
    var awaiting: set<(Role, ProviderId)>

    function Storage(): Registry
      reads this
    {
      Registry(ledger, requests, msps, bsps, totalCapacity, privileged, insolvent, awaiting)
    }

    constructor (c: Config, free: map<Account, nat>)
      ensures config == c
      ensures Inv(config, Storage())
      ensures Storage().ledger == Ledger(free, map[]) && Storage().requests == map[]
    {
      config := c;
      ledger, requests, privileged, insolvent, awaiting := Ledger(free, map[]), map[], {}, {}, {};
      msps, bsps := NOBODY, NOBODY;
      totalCapacity := 0;
      new;
      EmptyInv(c, free);
    }

    method RequestRole(role: Role, who: Account, capacity: nat, hasAddress: bool, block: nat)
      returns (result: Outcome<(), Error>)
      requires Inv(config, Storage())
      modifies this`ledger, this`requests
      ensures var spec := RequestSignUp(config, old(Storage()), role, who, capacity, hasAddress, block);
              && (result.Ok? <==> spec.Ok?)
              && Storage() == (if spec.Ok? then spec.value else old(Storage()))
              && (result.Err? ==> result.error == spec.error)
      ensures Inv(config, Storage())
    {
      ghost var before := Storage();
      hide Inv;
      if who in requests { return Err(SignUpRequestPending); }
      if who in msps.ids || who in bsps.ids { return Err(AlreadyRegistered); }
      if !hasAddress { return Err(NoMultiAddress); }
      if capacity < config.minCapacity { return Err(StorageTooLow); }
      var deposit := DepositFor(config, capacity);
      if deposit.Err? { return Err(deposit.error); }
      if Reducible(config.ed, ledger, who) < deposit.value { return Err(NotEnoughBalance); }
      ledger := Hold(config.ed, ledger, who, deposit.value).value;
      requests := requests[who := Request(role, capacity, block)];
      result := Ok(());
      RequestInv(config, before, role, who, capacity, hasAddress, block);
    }

    method CancelRequest(who: Account) returns (result: Outcome<(), Error>)
      requires Inv(config, Storage())
      modifies this`ledger, this`requests
      ensures var spec := CancelSignUp(old(Storage()), who);
              && (result.Ok? <==> spec.Ok?)
              && Storage() == (if spec.Ok? then spec.value else old(Storage()))
              && (result.Err? ==> result.error == spec.error)
      ensures Inv(config, Storage())
    {
      ghost var before := Storage();
      hide Inv;
      if who !in requests { return Err(SignUpNotRequested); }
      requests := requests - {who};
      ledger := ReleaseAll(ledger, who);
      result := Ok(());
      CancelInv(config, before, who);
    }

    method SignUpMsp(who: Account, id: ProviderId, capacity: nat, at: nat, block: nat) returns (result: Outcome<(), Error>)
      modifies this`requests, this`msps, this`privileged
      ensures var spec := SignUp(config, old(Storage()), Msp, who, id, capacity, at, block);
              && (result.Ok? <==> spec.Ok?)
              && Storage() == (if spec.Ok? then spec.value else old(Storage()))
              && (result.Err? ==> result.error == spec.error)
    {
      if block >= at + config.maxBlocksForRandomness { return Err(SignUpRequestExpired); }
      if msps.count + 1 > config.maxCount { return Err(Overflow); }
      msps := Book(msps.byId[id := Provider(who, capacity, 0, at, at)], msps.ids[who := id], msps.count + 1);
      privileged := privileged + {id};
      requests := requests - {who};
      result := Ok(());
    }

    method SignUpBsp(who: Account, id: ProviderId, capacity: nat, at: nat, block: nat) returns (result: Outcome<(), Error>)
      modifies this`requests, this`bsps, this`totalCapacity
      ensures var spec := SignUp(config, old(Storage()), Bsp, who, id, capacity, at, block);
              && (result.Ok? <==> spec.Ok?)
              && Storage() == (if spec.Ok? then spec.value else old(Storage()))
              && (result.Err? ==> result.error == spec.error)
    {
      if block >= at + config.maxBlocksForRandomness { return Err(SignUpRequestExpired); }
      if totalCapacity + capacity > config.maxUnits { return Err(Overflow); }
      if bsps.count + 1 > config.maxCount { return Err(Overflow); }
      bsps := Book(bsps.byId[id := Provider(who, capacity, 0, at, at)], bsps.ids[who := id], bsps.count + 1);
      totalCapacity := totalCapacity + capacity;
      requests := requests - {who};
      result := Ok(());
    }

    /** The id is drawn by the randomness of `randomBlock`; drawing one in use breaks the invariant, and nothing else
        does. */
    method ConfirmRequest(who: Account, id: ProviderId, randomBlock: nat, block: nat) returns (result: Outcome<(), Error>)
      requires Inv(config, Storage())
      modifies this`requests, this`msps, this`bsps, this`totalCapacity, this`privileged
      ensures var spec := ConfirmSignUp(config, old(Storage()), who, id, randomBlock, block);
              && (result.Ok? <==> spec.Ok?)
              && Storage() == (if spec.Ok? then spec.value else old(Storage()))
              && (result.Err? ==> result.error == spec.error)
      ensures result.Ok? ==> (Inv(config, Storage()) <==> id !in BookOf(old(Storage()), old(requests)[who].role).byId)
    {
      ghost var before := Storage();
      hide Inv;
      if who !in requests { return Err(SignUpNotRequested); }
      var r := requests[who];
      if randomBlock < r.at { return Err(RandomnessNotValidYet); }
      hide SignUp;
      if r.role.Msp? {
        result := SignUpMsp(who, id, r.capacity, r.at, block);
      } else {
        result := SignUpBsp(who, id, r.capacity, r.at, block);
      }
      if result.Ok? {
        ConfirmExactly(config, before, who, id, randomBlock, block);
      }
    }

    method SignOffBsp(who: Account, block: nat) returns (result: Outcome<(), Error>)
      requires Inv(config, Storage())
      modifies this`ledger, this`bsps, this`totalCapacity
      ensures var spec := SignOff(config, old(Storage()), Bsp, who, block);
              && (result.Ok? <==> spec.Ok?)
              && Storage() == (if spec.Ok? then spec.value else old(Storage()))
              && (result.Err? ==> result.error == spec.error)
      ensures Inv(config, Storage())
    {
      ghost var before := Storage();
      hide Inv;
      if who !in bsps.ids { return Err(NotRegistered); }
      var id := bsps.ids[who];
      if id !in bsps.byId { return Err(SpRegisteredButDataNotFound); }
      var bsp := bsps.byId[id];
      if bsp.used != 0 { return Err(StorageStillInUse); }
      if block < bsp.signUpBlock + config.lockPeriod { return Err(SignOffPeriodNotPassed); }
      if totalCapacity < bsp.capacity || bsps.count == 0 { return Err(Underflow); }
      bsps := Book(bsps.byId - {id}, bsps.ids - {who}, bsps.count - 1);
      totalCapacity := totalCapacity - bsp.capacity;
      ledger := ReleaseAll(ledger, who);
      result := Ok(());
      SignOffInv(config, before, Bsp, who, block);
    }

    method SignOffMsp(who: Account, block: nat) returns (result: Outcome<(), Error>)
      requires Inv(config, Storage())
      modifies this`ledger, this`msps, this`privileged
      ensures var spec := SignOff(config, old(Storage()), Msp, who, block);
              && (result.Ok? <==> spec.Ok?)
              && Storage() == (if spec.Ok? then spec.value else old(Storage()))
              && (result.Err? ==> result.error == spec.error)
      ensures Inv(config, Storage())
    {
      ghost var before := Storage();
      hide Inv;
      if who !in msps.ids { return Err(NotRegistered); }
      var id := msps.ids[who];
      if id !in msps.byId { return Err(SpRegisteredButDataNotFound); }
      if msps.byId[id].used != 0 { return Err(StorageStillInUse); }
      if msps.count == 0 { return Err(Underflow); }
      msps := Book(msps.byId - {id}, msps.ids - {who}, msps.count - 1);
      ledger := ReleaseAll(ledger, who);
      privileged := privileged - {id};
      result := Ok(());
      SignOffInv(config, before, Msp, who, block);
    }

    method ChangeMspCapacity(who: Account, id: ProviderId, capacity: nat, block: nat) returns (result: Outcome<(), Error>)
      requires Inv(config, Storage()) && who in msps.ids && msps.ids[who] == id
      modifies this`ledger, this`msps
      ensures var spec := ChangeRoleCapacity(config, old(Storage()), Msp, who, id, capacity, block);
              && (result.Ok? <==> spec.Ok?)
              && Storage() == (if spec.Ok? then spec.value else old(Storage()))
              && (result.Err? ==> result.error == spec.error)
      ensures Inv(config, Storage())
    {
      ghost var before := Storage();
      hide Inv, DepositFor, AdjustHold;
      if (Msp, id) in insolvent { return Err(OperationNotAllowedForInsolventProvider); }
      if id !in msps.byId { return Err(NotRegistered); }
      var msp := msps.byId[id];
      if capacity == msp.capacity { return Err(NewCapacityEqualsCurrentCapacity); }
      if block < msp.lastChange + config.blocksBetweenChanges { return Err(NotEnoughTimePassed); }
      if capacity < config.minCapacity { return Err(StorageTooLow); }
      if capacity < msp.used { return Err(NewCapacityLessThanUsedStorage); }
      var deposit := DepositFor(config, capacity);
      if deposit.Err? { return Err(deposit.error); }
      var adjusted := AdjustHold(config, ledger, who, deposit.value);
      if adjusted.Err? { return Err(adjusted.error); }
      ledger := adjusted.value;
      msps := msps.(byId := msps.byId[id := msp.(capacity := capacity, lastChange := block)]);
      result := Ok(());
      ChangeRoleInv(config, before, Msp, who, id, capacity, block);
    }

    method ChangeBspCapacity(who: Account, id: ProviderId, capacity: nat, block: nat) returns (result: Outcome<(), Error>)
      requires Inv(config, Storage()) && who in bsps.ids && bsps.ids[who] == id
      modifies this`ledger, this`bsps, this`totalCapacity
      ensures var spec := ChangeRoleCapacity(config, old(Storage()), Bsp, who, id, capacity, block);
              && (result.Ok? <==> spec.Ok?)
              && Storage() == (if spec.Ok? then spec.value else old(Storage()))
              && (result.Err? ==> result.error == spec.error)
      ensures Inv(config, Storage())
    {
      ghost var before := Storage();
      hide Inv, DepositFor, AdjustHold;
      if (Bsp, id) in insolvent { return Err(OperationNotAllowedForInsolventProvider); }
      if id !in bsps.byId { return Err(NotRegistered); }
      var bsp := bsps.byId[id];
      if capacity == bsp.capacity { return Err(NewCapacityEqualsCurrentCapacity); }
      if block < bsp.lastChange + config.blocksBetweenChanges { return Err(NotEnoughTimePassed); }
      if capacity < config.minCapacity { return Err(StorageTooLow); }
      if capacity < bsp.used { return Err(NewCapacityLessThanUsedStorage); }
      var deposit := DepositFor(config, capacity);
      if deposit.Err? { return Err(deposit.error); }
      var adjusted := AdjustHold(config, ledger, who, deposit.value);
      if adjusted.Err? { return Err(adjusted.error); }
      if capacity > bsp.capacity {
        var difference := capacity - bsp.capacity;
        if totalCapacity + difference > config.maxUnits { return Err(Overflow); }
        totalCapacity := totalCapacity + difference;
      } else {
        var difference := bsp.capacity - capacity;
        if totalCapacity < difference { return Err(Underflow); }
        totalCapacity := totalCapacity - difference;
      }
      ledger := adjusted.value;
      bsps := bsps.(byId := bsps.byId[id := bsp.(capacity := capacity, lastChange := block)]);
      result := Ok(());
      ChangeRoleInv(config, before, Bsp, who, id, capacity, block);
    }
  }
}
