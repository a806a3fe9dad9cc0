/**
 What the effect-side invariants amount to over a whole history of committed
 states: at-most-once execution, exactly-once consumption of approvals, and the
 bound on how often a family of retries can have run.
 */
module EffectHistory {
  import opened Wrappers
  import opened StoreModel
  import opened StoreInvariants

  /** Consecutive committed states of the effect tables. */
  ghost predicate History(ws: seq<Work>) {
    && |ws| > 0
    && (forall i :: 0 <= i < |ws| ==> WorkSound(ws[i]))
    && (forall i {:trigger ws[i]} :: 0 <= i < |ws| - 1 ==> WorkEvolves(ws[i], ws[i + 1]))
  }

  ghost function Last(ws: seq<Work>): Work
    requires |ws| > 0
  {
    ws[|ws| - 1]
  }

  /** How many steps of the history moved the effect into EXECUTING. */
  ghost function Entries(ws: seq<Work>, e: Id): nat {
    if |ws| <= 1 then 0
    else Entries(ws[..|ws| - 1], e) + if Enters(ws[|ws| - 2].effects, ws[|ws| - 1].effects, e) then 1 else 0
  }

  /** How many steps left the effect in EXECUTING that was not there before. */
  ghost function Starts(ws: seq<Work>, e: Id): nat {
    if |ws| <= 1 then 0
    else Starts(ws[..|ws| - 1], e) + if Begins(ws[|ws| - 2].effects, ws[|ws| - 1].effects, e) then 1 else 0
  }

  lemma {:induction false} HistoryPrefix(ws: seq<Work>)
    requires History(ws) && |ws| > 1
    ensures History(ws[..|ws| - 1]) && WorkEvolves(ws[|ws| - 2], Last(ws)) && WorkSound(Last(ws)) && WorkSound(ws[|ws| - 2])
    ensures Last(ws[..|ws| - 1]) == ws[|ws| - 2]
  {
    hide WorkSound, WorkEvolves;
    var i := |ws| - 2;
    assert WorkEvolves(ws[i], ws[i + 1]);
  }

  /** Each effect comes to EXECUTING at most once, claimed or stored so, and then stays spent. */
  lemma {:induction false} AtMostOnce(ws: seq<Work>, e: Id)
    requires History(ws)
    ensures Entries(ws, e) <= Starts(ws, e) <= 1
    ensures Starts(ws, e) == 1 ==> e in Last(ws).effects && Spent(Last(ws).effects[e].status)
  {
    hide WorkSound;
    if |ws| > 1 {
      HistoryPrefix(ws);
      AtMostOnce(ws[..|ws| - 1], e);
    }
  }

  lemma {:induction false} EvolvesBetween(ws: seq<Work>, i: nat, j: nat)
    requires History(ws) && i <= j < |ws|
    ensures forall e :: e in ws[i].effects ==>
              && e in ws[j].effects && ws[j].effects[e].content == ws[i].effects[e].content
              && (Spent(ws[i].effects[e].status) ==> Spent(ws[j].effects[e].status))
              && (ws[i].effects[e].status.Unknown? ==>
                    ws[j].effects[e] == ws[i].effects[e] || ws[j].effects[e].status.Succeeded? || ws[j].effects[e].status.EffectFailed?)
    ensures forall a :: a in ws[i].approvals ==>
              && a in ws[j].approvals && ws[j].approvals[a].effectId == ws[i].approvals[a].effectId
              && (!ws[i].approvals[a].status.Pending? && !ws[i].approvals[a].status.Approved? ==>
                    ws[j].approvals[a].status == ws[i].approvals[a].status)
    ensures RowsKept(ws[i].dispositions, ws[j].dispositions) && RowsKept(ws[i].observations, ws[j].observations)
    decreases j - i
  {
    hide WorkSound;
    if i < j {
      EvolvesBetween(ws, i, j - 1);
      assert WorkEvolves(ws[j - 1], ws[j - 1 + 1]);
    }
  }

  /** A started effect is never started again, and a closed approval is never reopened. */
  lemma {:induction false} NeverAgain(ws: seq<Work>, i: nat, j: nat, e: Id)
    requires History(ws) && i <= j < |ws| - 1 && e in ws[i].effects && Spent(ws[i].effects[e].status)
    ensures !Enters(ws[j].effects, ws[j + 1].effects, e)
  {
    hide WorkSound;
    EvolvesBetween(ws, i, j);
    assert WorkEvolves(ws[j], ws[j + 1]);
  }

  // -------------------------------------------------- exactly-once consumption

  /** Behind every consumed approval is exactly one execution of its effect. */
  lemma {:induction false} ConsumedMeansEntered(ws: seq<Work>, a: Id)
    requires History(ws) && ws[0].approvals == map[]
    requires a in Last(ws).approvals && Last(ws).approvals[a].status.Consumed?
    ensures Entries(ws, Last(ws).approvals[a].effectId) == 1
  {
    hide WorkSound;
    var e := Last(ws).approvals[a].effectId;
    AtMostOnce(ws, e);
    if |ws| > 1 {
      HistoryPrefix(ws);
      var before := ws[|ws| - 2].approvals;
      if a in before && before[a].status.Consumed? {
        ConsumedMeansEntered(ws[..|ws| - 1], a);
      } else {
        assert Consumes(before, Last(ws).approvals, a);
      }
    }
  }

  /** An effect that policy gates runs only by consuming an approval of its own. */
  lemma {:induction false} EnteredMeansConsumed(ws: seq<Work>, e: Id) returns (a: Id)
    requires History(ws) && Entries(ws, e) == 1
    requires e in Last(ws).effects && Last(ws).effects[e].content.decision.RequireApproval?
    ensures a in Last(ws).approvals && Last(ws).approvals[a].effectId == e && Last(ws).approvals[a].status.Consumed?
  {
    hide WorkSound;
    HistoryPrefix(ws);
    var w, w' := ws[|ws| - 2], Last(ws);
    if Enters(w.effects, w'.effects, e) {
      assert Pays(w.approvals, w'.approvals, e);
      a :| a in w.approvals && w.approvals[a].effectId == e && w.approvals[a].status.Approved?
           && a in w'.approvals && w'.approvals[a].status.Consumed?;
    } else {
      AtMostOnce(ws[..|ws| - 1], e);
      a := EnteredMeansConsumed(ws[..|ws| - 1], e);
    }
  }

  /** For a gated effect, having run once and having a consumed approval are the same. */
  lemma {:induction false} RunsIffConsumed(ws: seq<Work>, e: Id)
    requires History(ws) && ws[0].approvals == map[]
    requires e in Last(ws).effects && Last(ws).effects[e].content.decision.RequireApproval?
    ensures Entries(ws, e) == 1 <==>
            exists a :: a in Last(ws).approvals && Last(ws).approvals[a].effectId == e && Last(ws).approvals[a].status.Consumed?
  {
    hide WorkSound, WorkEvolves;
    if Entries(ws, e) == 1 {
      var a := EnteredMeansConsumed(ws, e);
    } else {
      forall a | a in Last(ws).approvals && Last(ws).approvals[a].effectId == e
        ensures !Last(ws).approvals[a].status.Consumed?
      {
        if Last(ws).approvals[a].status.Consumed? {
          ConsumedMeansEntered(ws, a);
        }
      }
    }
  }

  // ------------------------------------------------------------------ retries

  /** All entries into EXECUTING by members of the set. */
  ghost function TotalEntries(ws: seq<Work>, family: set<Id>): nat {
    if |ws| <= 1 then 0
    else TotalEntries(ws[..|ws| - 1], family)
         + |set e | e in family && Enters(ws[|ws| - 2].effects, ws[|ws| - 1].effects, e)|
  }

  ghost function SpentIn(w: Work, family: set<Id>): set<Id> {
    set e | e in family && e in w.effects && Spent(w.effects[e].status)
  }

  lemma {:induction false} EntriesAreSpent(ws: seq<Work>, family: set<Id>)
    requires History(ws)
    ensures TotalEntries(ws, family) <= |SpentIn(Last(ws), family)|
  {
    hide WorkSound, WorkEvolves, SpentIn;
    if |ws| > 1 {
      HistoryPrefix(ws);
      EntriesAreSpent(ws[..|ws| - 1], family);
      SpentGrows(ws[|ws| - 2], Last(ws), family);
    }
  }

  lemma {:induction false} SpentGrows(w: Work, w': Work, family: set<Id>)
    requires WorkEvolves(w, w')
    ensures |SpentIn(w, family)| + |set e | e in family && Enters(w.effects, w'.effects, e)| <= |SpentIn(w', family)|
  {
    var entering := set e | e in family && Enters(w.effects, w'.effects, e);
    forall e | e in family
      ensures e in SpentIn(w, family) ==> e in SpentIn(w', family) && e !in entering
      ensures e in entering ==> e in SpentIn(w', family)
    {
      SpentStays(w, w', e);
    }
    hide WorkEvolves, SpentIn, Enters;
    SpentWithin(w, family);
    CardinalityMonotone(SpentIn(w, family) + entering, SpentIn(w', family));
  }

  lemma {:induction false} SpentStays(w: Work, w': Work, e: Id)
    requires WorkEvolves(w, w')
    ensures e in w.effects && Spent(w.effects[e].status) ==>
              e in w'.effects && Spent(w'.effects[e].status) && !Enters(w.effects, w'.effects, e)
  {
    hide ApprovalsEvolve, RowsKept, Pays, Consumes;
  }

  lemma {:induction false} SpentWithin(w: Work, family: set<Id>)
    ensures SpentIn(w, family) <= family
  {
  }

  lemma {:induction false} CardinalityMonotone<T>(a: set<T>, b: set<T>)
    requires a <= b
    ensures |a| <= |b|
  {
    assert b == a + (b - a);
  }

  /** The retry decisions about members of the family. */
  ghost function RetriesOf(w: Work, family: set<Id>): set<Id> {
    set d | d in w.dispositions && w.dispositions[d].kind.CreateRetry? && w.dispositions[d].unknownEffectId in family
  }

  /** Every member but the root was created by a retry decision about a member. */
  ghost predicate RetryFamily(w: Work, family: set<Id>, root: Id) {
    forall e :: e in family && e != root ==>
      exists d :: d in RetriesOf(w, family) && w.dispositions[d].retryEffectId == Some(e)
  }

  lemma {:induction false} ImageIsSmall(made: map<Id, Option<Id>>, members: set<Id>)
    requires forall e :: e in members ==> exists d :: d in made && made[d] == Some(e)
    ensures |members| <= |made|
    decreases |members|
  {
    if members != {} {
      var e := AnElement(members);
      var d :| d in made && made[d] == Some(e);
      var fewer := made - {d};
      assert forall c :: c in made && c != d ==> c in fewer && fewer[c] == made[c];
      ImageIsSmall(fewer, members - {e});
      assert members == members - {e} + {e} && made.Keys == fewer.Keys + {d};
    }
  }

  /**
   An effect and its retries, and the retries of those, run at most once plus once
   per explicit CREATE_RETRY decision among them.
   */
  lemma {:induction false} RetriesBoundExecutions(ws: seq<Work>, family: set<Id>, root: Id)
    requires History(ws) && RetryFamily(Last(ws), family, root)
    ensures TotalEntries(ws, family) <= 1 + |RetriesOf(Last(ws), family)|
  {
    hide WorkSound, WorkEvolves;
    var w := Last(ws);
    EntriesAreSpent(ws, family);
    CardinalityMonotone(SpentIn(w, family), family);
    var retries := RetriesOf(w, family);
    var made := map d | d in retries :: w.dispositions[d].retryEffectId;
    forall e | e in family - {root}
      ensures exists d :: d in made && made[d] == Some(e)
    {
      var d :| d in retries && w.dispositions[d].retryEffectId == Some(e);
      assert d in made;
    }
    ImageIsSmall(made, family - {root});
    assert made.Keys == retries;
    CardinalityMonotone(family, family - {root} + {root});
  }

  /** An unknown effect has one decision for good and never runs again; retried or abandoned it stays unknown. */
  lemma {:induction false} DisposedForGood(ws: seq<Work>, i: nat, j: nat, d: Id, f: Id)
    requires History(ws) && i <= j < |ws| && d in ws[i].dispositions
    requires f in ws[j].dispositions && ws[j].dispositions[f].unknownEffectId == ws[i].dispositions[d].unknownEffectId
    ensures f == d && ws[j].dispositions[d] == ws[i].dispositions[d]
    ensures var u := ws[i].dispositions[d].unknownEffectId;
            && u in ws[j].effects && Spent(ws[j].effects[u].status)
            && (!ws[i].dispositions[d].kind.ConfirmResult? ==> ws[j].effects[u].status.Unknown?)
            && (j + 1 < |ws| ==> !Enters(ws[j].effects, ws[j + 1].effects, u))
  {
    hide WorkEvolves;
    EvolvesBetween(ws, i, j);
    assert WorkSound(ws[j]);
    if j + 1 < |ws| {
      NeverAgain(ws, j, j, ws[i].dispositions[d].unknownEffectId);
    }
  }
}
