// The agent medium as far as its descriptor is concerned: the queue of descriptor updates, of which one
// at a time is being saved, and the reaction to answers and notifications. Each method is proved to be
// the step of DescriptorLock it stands for.

module AgencyAgents {
  import opened Wrappers
  import opened EmuDatabase
  import opened Connection
  import opened DescriptorLock

  class AgencyAgent {
    const database: DbConnection
    var stage: Stage
    var descriptor: Rev
    var attempted: bool
    var killed: bool
    var updating: bool
    var updateQueue: seq<nat>   // the updates asked for and not sent yet, by number
    var finished: seq<nat>      // those that have been answered
    var current: nat            // the one being saved, while updating

    ghost predicate Valid()
      reads this, database
    {
      && database.Valid()
      && (updating <==> stage.Requested?)
      && (stage.Requested? ==> database.updateLockCounter > 0)
      && !stage.Answered?
    }

    // The instance this object is, given the notifications that are under way to it.
    function View(inbox: multiset<Rev>): Instance
      reads this, database
    {
      Instance(stage, database.View(), descriptor, inbox, attempted, killed)
    }

    // All the updates ever asked for, in the order in which they are carried out.
    function Updates(): seq<nat>
      reads this
    {
      finished + (if updating then [current] else []) + updateQueue
    }

    constructor (database: DbConnection, descriptor: Rev)
      requires database.Valid()
      ensures Valid() && this.database == database && Updates() == []
      ensures View(multiset{}) == Instance(Starting, database.View(), descriptor, multiset{}, false, false)
    {
      this.database, this.descriptor := database, descriptor;
      stage, attempted, killed, updating, updateQueue, finished, current := Starting, false, false, false, [], [], 0;
    }

    // _reload_descriptor: the descriptor is fetched and its revision noted.
    method ReloadDescriptor(db: Database<nat>)
      requires Valid() && stage.Starting? && DESCRIPTOR in db.documents
      modifies this`stage, this`descriptor, database`known
      ensures Valid() && Updates() == old(Updates())
      ensures forall inbox ::
                View(inbox) == old(View(inbox)).(stage := Loaded, copy := db.documents[DESCRIPTOR].rev,
                                                 conn := NoteRevision(old(database.View()), DESCRIPTOR,
                                                                      db.documents[DESCRIPTOR].rev))
    {
      descriptor := db.documents[DESCRIPTOR].rev;
      database.NoticeDocRevision(DESCRIPTOR, descriptor);
      stage := Loaded;
    }

    method SubscribeForDescriptorChanges()
      requires Valid() && stage.Loaded?
      modifies this`stage
      ensures Valid() && Updates() == old(Updates())
      ensures forall inbox :: View(inbox) == old(View(inbox)).(stage := Subscribed)
    {
      stage := Subscribed;
    }

    /** update_descriptor: the update joins the queue; it is carried out at once when nothing is being saved.
        `raises` tells whether the update function that comes first raises: then nothing is sent. */
    method UpdateDescriptor(update: nat, raises: bool)
      requires Valid() && (stage.Subscribed? || stage.Requested?)
      modifies this, database`updateLockCounter
      ensures Valid() && Updates() == old(Updates()) + [update]
      ensures old(stage).Requested? || raises ==> forall inbox :: View(inbox) == old(View(inbox))
      ensures old(stage).Subscribed? && !raises ==>
                forall inbox :: View(inbox) == old(View(inbox)).(stage := Requested, conn := Lock(old(database.View())))
    {
      updateQueue := updateQueue + [update];
      NextUpdate(raises);
    }

    method NextUpdate(raises: bool)
      requires Valid() && (stage.Subscribed? || stage.Requested?)
      modifies this`stage, this`updating, this`updateQueue, this`current, this`finished, database`updateLockCounter
      ensures Valid() && Updates() == old(Updates())
      ensures updating || updateQueue == [] || raises
      ensures old(updating) || old(updateQueue) == [] || raises ==> forall inbox :: View(inbox) == old(View(inbox))
      ensures !old(updating) && old(updateQueue) != [] && raises ==> finished == old(finished) + [old(updateQueue)[0]]
      ensures !old(updating) && old(updateQueue) != [] && !raises ==>
                forall inbox :: View(inbox) == old(View(inbox)).(stage := Requested, conn := Lock(old(database.View())))
    {
      if updating { return; }
      if updateQueue == [] { return; }
      current, updateQueue := updateQueue[0], updateQueue[1..];
      if raises {
        finished := finished + [current];
        return;
      }
      updating := true;
      database.LockNotifications();
      stage := Requested;
    }

    /** The answer to the save: `saved` or the conflict error handler, then the release of the queue. What the
        callback of the change listener was told while the lock was held is acted upon here. */
    method OnAnswer(outcome: Option<Rev>)
      requires Valid() && stage.Requested?
      modifies this, database
      ensures Valid() && Updates() == old(Updates()) && !updating
      ensures |finished| == old(|finished|) + 1
      ensures forall inbox :: View(inbox) == AfterAnswer(old(View(inbox)).(stage := Answered(outcome)))
    {
      if outcome.Some? {
        database.NoticeDocRevision(DESCRIPTOR, outcome.value);
      }
      Release();
      if outcome.Some? {
        descriptor := outcome.value;
      } else {
        killed := true;
      }
      attempted, stage := true, Subscribed;
      finished, updating := finished + [current], false;
    }

    // The error handler for anything but a conflict: the update has failed, the agent goes on.
    method OnFailure()
      requires Valid() && stage.Requested?
      modifies this, database
      ensures Valid() && Updates() == old(Updates()) && !updating
      ensures |finished| == old(|finished|) + 1
      ensures forall inbox :: View(inbox) == AfterFailure(old(View(inbox)))
    {
      Release();
      stage := Subscribed;
      finished, updating := finished + [current], false;
    }

    // The connection is used for saving another document, too.
    method OtherSaveBegins()
      requires Valid()
      modifies database`updateLockCounter
      ensures Valid() && Updates() == old(Updates())
      ensures forall inbox :: View(inbox) == old(View(inbox)).(conn := Lock(old(database.View())))
    {
      database.LockNotifications();
    }

    // That save has ended; `noted` is the new revision of its document.
    method OtherSaveEnds(noted: Option<(Id, Rev)>)
      requires Valid() && database.updateLockCounter > (if stage.Requested? then 1 else 0)
      modifies this`killed, database
      ensures Valid() && Updates() == old(Updates())
      ensures forall inbox :: View(inbox) == AfterOther(old(View(inbox)), noted)
    {
      if noted.Some? {
        database.NoticeDocRevision(noted.value.0, noted.value.1);
      }
      Release();
    }

    // The lock is released, and what the listener is told then is acted upon.
    method Release()
      requires database.Valid() && database.updateLockCounter > 0
      modifies this`killed, database
      ensures database.Valid() && database.View() == Unlock(old(database.View()))
      ensures killed == (old(killed) || SomeForeign(database.delivered, |old(database.delivered)|))
    {
      var delivered := |database.delivered|;
      database.UnlockNotifications();
      ActOnDeliveries(delivered);
    }

    // _descriptor_changed for each delivery from the given one on.
    method ActOnDeliveries(first: nat)
      requires first <= |database.delivered|
      modifies this`killed
      ensures killed == (old(killed) || SomeForeign(database.delivered, first))
    {
      for p := first to |database.delivered|
        invariant killed == (old(killed) || exists q | first <= q < p :: !database.delivered[q].own)
      {
        if !database.delivered[p].own {
          killed := true;
        }
      }
    }

    method OnNotification(rev: Rev)
      requires Valid()
      modifies this`killed, database
      ensures Valid() && Updates() == old(Updates())
      ensures forall inbox | rev in inbox :: View(inbox - multiset{rev}) == Heard(old(View(inbox)), rev)
    {
      var delivered := |database.delivered|;
      database.OnChangeReceived(Note(rev));
      ActOnDeliveries(delivered);
    }
  }
}
