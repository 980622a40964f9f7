/**
 The two-tier cache of credential checks of apps/common/auth_flow.py: a
 dictionary per process and one persisted row, shared by all processes.
 */
module ValidationCache {
  import opened Options

  /** The time-to-live settings, in seconds. */
  datatype Ttl = Ttl(positive: nat, negative: nat, persisted: nat)

  function Lifetime(ttl: Ttl, valid: bool): nat {
    if valid then ttl.positive else ttl.negative
  }

  /** One process's `_validation_cache`; a token of "" is none. */
  datatype Memory = Memory(valid: bool, checkedAt: int, token: string, source: string)

  const NoMemory := Memory(false, 0, "", "")

  /** The persisted row; the token's hash is represented by the token. */
  datatype Persisted = Persisted(valid: bool, checkedAt: int, token: string, source: string)

  /** A live check that was run. */
  datatype Check = Check(token: string, source: string, valid: bool, at: int)

  /** Some live check of this pair had this outcome and is this recent. */
  ghost predicate Backed(checks: set<Check>, token: string, source: string, valid: bool, now: int, age: nat) {
    exists at :: Check(token, source, valid, at) in checks && at <= now < at + age
  }

  class Deployment {
    const ttl: Ttl
    var now: int
    var memories: seq<Memory>
    var row: Option<Persisted>
    ghost var checks: set<Check>

    constructor (ttl: Ttl, processes: nat, now: int)
      ensures Valid() && this.ttl == ttl && this.now == now && row.None? && checks == {}
      ensures |memories| == processes && forall p | 0 <= p < processes :: memories[p] == NoMemory
    {
      this.ttl, this.now, row, checks := ttl, now, None, {};
      memories := seq(processes, _ => NoMemory);
    }

    /** A memory entry rests on a check that was younger than the persisted time
        to live when the entry was stamped; the row rests on its own check. */
    ghost predicate Valid()
      reads this
    {
      (forall p | 0 <= p < |memories| && memories[p].token != "" ::
         memories[p].checkedAt <= now
         && exists at :: Check(memories[p].token, memories[p].source, memories[p].valid, at) in checks
                         && at <= memories[p].checkedAt && (at == memories[p].checkedAt || memories[p].checkedAt < at + ttl.persisted))
      && (row.Some? ==> row.value.checkedAt <= now && Check(row.value.token, row.value.source, row.value.valid, row.value.checkedAt) in checks)
    }

    /** The clock is shared and never goes back. */
    method Tick(seconds: nat)
      requires Valid()
      modifies this`now
      ensures Valid() && now == old(now) + seconds
    {
      now := now + seconds;
    }

    /** A process is replaced by a fresh one. */
    method Restart(p: nat)
      requires Valid() && p < |memories|
      modifies this`memories
      ensures Valid() && memories == old(memories)[p := NoMemory]
    {
      memories := memories[p := NoMemory];
    }

    /** `_invalidate_validation_cache`, in process p. */
    method Invalidate(p: nat)
      requires Valid() && p < |memories|
      modifies this`memories, this`row
      ensures Valid() && row.None?
      ensures memories == old(memories)[p := old(memories)[p].(checkedAt := 0, token := "", source := "")]
    {
      memories := memories[p := memories[p].(checkedAt := 0, token := "", source := "")];
      row := None;
    }

    /** `_read_persisted_validation`: None for no row, another pair, or an old row. */
    function ReadPersisted(token: string, source: string): Option<bool>
      reads this
    {
      if row.Some? && row.value.token == token && row.value.source == source
         && 0 <= now - row.value.checkedAt < ttl.persisted
      then Some(row.value.valid) else None
    }

    /** The memory of process p answers for the pair. */
    predicate Remembers(p: nat, token: string, source: string)
      requires p < |memories|
      reads this
    {
      var m := memories[p];
      m.token == token && m.source == source && now - m.checkedAt < Lifetime(ttl, m.valid)
    }

    /** `validate_stored_token` for the resolved pair; `live` is what a live check
        would find now. Serves memory, else the row (promoting it), else checks. */
    method Validate(p: nat, token: string, source: string, live: bool) returns (valid: bool)
      requires Valid() && p < |memories| && token != ""
      modifies this`memories, this`row, this`checks
      ensures Valid() && now == old(now)
      ensures old(Remembers(p, token, source)) ==>
                valid == old(memories[p].valid) && memories == old(memories) && row == old(row) && checks == old(checks)
      ensures !old(Remembers(p, token, source)) && old(ReadPersisted(token, source)).Some? ==>
                valid == old(ReadPersisted(token, source)).value && row == old(row) && checks == old(checks)
                && memories == old(memories)[p := Memory(valid, now, token, source)]
      ensures !old(Remembers(p, token, source)) && old(ReadPersisted(token, source)).None? ==>
                valid == live && row == Some(Persisted(live, now, token, source))
                && memories == old(memories)[p := Memory(live, now, token, source)]
                && checks == old(checks) + {Check(token, source, live, now)}
      ensures old(memories[p].token == token && memories[p].source == source
                    && now - memories[p].checkedAt < (if memories[p].valid then ttl.positive else ttl.negative)) ==>
                valid == old(memories[p].valid) && checks == old(checks)
      ensures old(memories[p].token != token || memories[p].source != source
                    || now - memories[p].checkedAt >= (if memories[p].valid then ttl.positive else ttl.negative))
              && old(row.None? || row.value.token != token || row.value.source != source
                     || now < row.value.checkedAt || now - row.value.checkedAt >= ttl.persisted) ==>
                valid == live && checks == old(checks) + {Check(token, source, live, now)}
      ensures old(Remembers(p, token, source)) || old(ReadPersisted(token, source)).Some? ==>
                Backed(checks, token, source, valid, now, ttl.persisted + Lifetime(ttl, valid))
    {
      var m := memories[p];
      if m.token == token && m.source == source && now - m.checkedAt < Lifetime(ttl, m.valid) {
        return m.valid;
      }
      var persisted := ReadPersisted(token, source);
      if persisted.Some? {
        memories := memories[p := Memory(persisted.value, now, token, source)];
        return persisted.value;
      }
      checks := checks + {Check(token, source, live, now)};
      memories := memories[p := Memory(live, now, token, source)];
      row := Some(Persisted(live, now, token, source));
      return live;
    }
  }

  /** A rejected token is checked again once the negative time to live is over,
      though the positive one is not. */
  method RejectionIsRechecked() returns (early: bool, late: bool)
    ensures !early && late
  {
    hide Backed, Deployment.Valid;
    var d := new Deployment(Ttl(300, 15, 15), 1, 0);
    var _ := d.Validate(0, "token", "user", false);
    d.Tick(14);
    early := d.Validate(0, "token", "user", true);
    d.Tick(1);
    late := d.Validate(0, "token", "user", true);
  }

  /** Promotion restarts the clock: a result may be served longer than the
      persisted time to live after the check it rests on. */
  method PromotionOutlivesTheRow() returns (served: bool, age: int)
    ensures served && age > 3600
  {
    hide Backed, Deployment.Valid;
    var d := new Deployment(Ttl(300, 15, 3600), 2, 0);
    var _ := d.Validate(0, "token", "user", true);
    d.Tick(3599);
    var promoted := d.Validate(1, "token", "user", false);
    assert promoted && d.memories[1] == Memory(true, 3599, "token", "user");
    d.Tick(299);
    served := d.Validate(1, "token", "user", false);
    age := d.now;
  }
}
