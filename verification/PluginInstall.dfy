/** Installing the plugin beside an older one (scripts/
    install_local_windows_plugin.py): the old tree is set aside, its opaque
    data.json moves into the new tree, the new tree takes its place, and a
    failure anywhere is rolled back. Every file operation may fail, and every
    rename may land just before the program is interrupted. */
module PluginInstall {
  import opened Outcomes

  /** The four names in the plugin folder; three carry a fresh token. */
  datatype Slot = Target | Staging | Backup | Failed

  /** File names to contents, without data.json. */
  type Body = map<Id, Id>

  datatype Tree = Tree(body: Body, settings: Option<Id>)

  type Folder = map<Slot, Tree>

  datatype Fate = Lands | LandsInterrupted | Fails

  datatype Copying = Copied | CopyFailed(made: bool, keep: set<Id>)

  /** A deletion that fails keeps some files, and perhaps the directory. */
  datatype Removal = Removed | Stuck(root: bool, keep: set<Id>)

  /** What every operation of one installation and its rollback does. */
  datatype Faults = Faults(
    copy: Copying, stagingVerifies: bool, targetIsLocal: bool, setAside: Fate,
    settingsRegular: bool, settingsMove: Fate, activate: Fate, targetVerifies: bool, removeBackup: Removal,
    retire: Fate, returnRegular: bool, settingsReturn: Fate, restore: Fate, removeFailed: Removal, removeStaging: Removal)

  datatype Outcome = Installed | Raised | RollbackIncomplete(locations: seq<Slot>)

  // ---------------------------------------------------------------- the folder

  predicate HoldsSettings(folder: Folder, slot: Slot) {
    slot in folder && folder[slot].settings.Some?
  }

  function SettingsAt(folder: Folder, slot: Slot): Option<Id> {
    if slot in folder then folder[slot].settings else None
  }

  /** The settings are in exactly one place, or nowhere if there were none. */
  ghost predicate Kept(folder: Folder, settings: Option<Id>) {
    && (forall slot :: HoldsSettings(folder, slot) ==> SettingsAt(folder, slot) == settings)
    && (forall a, b :: HoldsSettings(folder, a) && HoldsSettings(folder, b) ==> a == b)
    && (settings.Some? ==> exists slot :: HoldsSettings(folder, slot))
  }

  function Restrict(body: Body, keep: set<Id>): Body {
    map k | k in body && k in keep :: body[k]
  }

  function Locations(folder: Folder): seq<Slot> {
    (if HoldsSettings(folder, Target) then [Target] else []) +
    (if HoldsSettings(folder, Staging) then [Staging] else []) +
    (if HoldsSettings(folder, Backup) then [Backup] else []) +
    (if HoldsSettings(folder, Failed) then [Failed] else [])
  }

  class PluginFolder {
    var slots: Folder
    /** Every state the folder was in, for a crash at any point. */
    ghost var trail: seq<Folder>

    constructor (slots: Folder)
      ensures this.slots == slots && trail == [slots]
    {
      this.slots := slots;
      trail := [slots];
    }

    method Rename(from: Slot, to: Slot, fate: Fate) returns (raised: bool)
      modifies this
      ensures slots == (if fate == Fails || from !in old(slots) || to in old(slots) then old(slots)
                        else (old(slots) - {from})[to := old(slots)[from]])
      ensures trail == old(trail) + [slots]
      ensures raised <==> fate != Lands || from !in old(slots) || to in old(slots)
    {
      if fate == Fails || from !in slots || to in slots {
        trail := trail + [slots];
        return true;
      }
      slots := (slots - {from})[to := slots[from]];
      trail := trail + [slots];
      raised := fate == LandsInterrupted;
    }

    /** Moves data.json; an existing one at the destination is overwritten. */
    method MoveSettings(from: Slot, to: Slot, fate: Fate) returns (raised: bool)
      requires from != to
      modifies this
      ensures slots == (if fate == Fails || !HoldsSettings(old(slots), from) || to !in old(slots) then old(slots)
                        else old(slots)[from := old(slots)[from].(settings := None)]
                                       [to := old(slots)[to].(settings := old(slots)[from].settings)])
      ensures trail == old(trail) + [slots]
      ensures raised <==> fate != Lands || !HoldsSettings(old(slots), from) || to !in old(slots)
    {
      if fate == Fails || !HoldsSettings(slots, from) || to !in slots {
        trail := trail + [slots];
        return true;
      }
      slots := slots[from := slots[from].(settings := None)][to := slots[to].(settings := slots[from].settings)];
      trail := trail + [slots];
      raised := fate == LandsInterrupted;
    }

    method CopyTree(source: Body, copying: Copying) returns (raised: bool)
      requires Staging !in slots
      modifies this
      ensures slots == (match copying
                        case Copied => old(slots)[Staging := Tree(source, None)]
                        case CopyFailed(made, keep) =>
                          if made then old(slots)[Staging := Tree(Restrict(source, keep), None)] else old(slots))
      ensures trail == old(trail) + [slots]
      ensures raised <==> copying.CopyFailed?
    {
      match copying {
        case Copied => slots := slots[Staging := Tree(source, None)];
        case CopyFailed(made, keep) =>
          if made { slots := slots[Staging := Tree(Restrict(source, keep), None)]; }
      }
      trail := trail + [slots];
      raised := copying.CopyFailed?;
    }

    /** Deletes a tree, data.json and all. */
    method RemoveTree(slot: Slot, removal: Removal) returns (raised: bool)
      requires slot in slots
      modifies this
      ensures slots == (match removal
                        case Removed => old(slots) - {slot}
                        case Stuck(root, keep) =>
                          if root then old(slots)[slot := Tree(Restrict(old(slots)[slot].body, keep), None)]
                          else old(slots) - {slot})
      ensures trail == old(trail) + [slots]
      ensures raised <==> removal.Stuck?
    {
      match removal {
        case Removed => slots := slots - {slot};
        case Stuck(root, keep) =>
          if root { slots := slots[slot := Tree(Restrict(slots[slot].body, keep), None)]; }
          else { slots := slots - {slot}; }
      }
      trail := trail + [slots];
      raised := removal.Stuck?;
    }
  }

  /** Nothing that happened from the mark on lost or doubled the settings. */
  ghost predicate SafeSince(trail: seq<Folder>, mark: nat, settings: Option<Id>) {
    mark <= |trail| && forall i :: mark <= i < |trail| ==> Kept(trail[i], settings)
  }

  /** The trail grew, by safe states only. */
  ghost predicate Follows(earlier: seq<Folder>, trail: seq<Folder>, settings: Option<Id>) {
    earlier <= trail && SafeSince(trail, |earlier|, settings)
  }

  // ---------------------------------------------------------------- how far an installation gets

  /** The stages of an installation, by what the folder looks like. */
  datatype Stage = Unchanged | Aside | SettingsOut | InPlace | Removing | Done

  predicate At(stage: Stage, before: Folder, now: Folder, source: Body) {
    var had, settings := Target in before, SettingsAt(before, Target);
    && Failed !in now
    && match stage
       case Unchanged =>
         Restored(before, now) && Backup !in now && (Staging in now ==> now[Staging].settings.None?)
       case Aside =>
         had && Target !in now && Backup in now && now[Backup] == before[Target]
         && Staging in now && now[Staging] == Tree(source, None)
       case SettingsOut =>
         had && settings.Some? && Target !in now && Backup in now && now[Backup] == Tree(before[Target].body, None)
         && Staging in now && now[Staging] == Tree(source, settings)
       case InPlace =>
         Target in now && now[Target] == Tree(source, settings) && Staging !in now
         && (if had then Backup in now && now[Backup] == Tree(before[Target].body, None) else Backup !in now)
       case Removing =>
         had && Target in now && now[Target] == Tree(source, settings) && Staging !in now
         && (Backup in now ==> now[Backup].settings.None?)
       case Done =>
         Target in now && now[Target] == Tree(source, settings) && Staging !in now && Backup !in now
  }

  /** The target is what it was, or absent if it was. */
  predicate Restored(before: Folder, now: Folder) {
    if Target in before then Target in now && now[Target] == before[Target] else Target !in now
  }

  lemma StagesKeepSettings(stage: Stage, before: Folder, now: Folder, source: Body)
    requires At(stage, before, now, source)
    ensures Kept(now, SettingsAt(before, Target))
  {
    var place := match stage
      case Unchanged => Target
      case Aside => Backup
      case SettingsOut => Staging
      case InPlace => Target
      case Removing => Target
      case Done => Target;
    forall slot ensures HoldsSettings(now, slot) ==> slot == place && SettingsAt(now, slot) == SettingsAt(before, Target) {
      match slot { case Target => case Staging => case Backup => case Failed => }
    }
    assert SettingsAt(before, Target).Some? ==> HoldsSettings(now, place);
  }

  /** The flags of the try block. */
  datatype Progress = Progress(raised: bool, activated: bool, backedUp: bool)

  /** The stage at which an installation stops. */
  function StopsAt(before: Folder, f: Faults): Stage {
    var had := Target in before;
    if f.copy.CopyFailed? || !f.stagingVerifies || (had && (!f.targetIsLocal || f.setAside == Fails)) then Unchanged
    else if had && f.setAside == LandsInterrupted then Aside
    else if HoldsSettings(before, Target) && (!f.settingsRegular || f.settingsMove == Fails) then Aside
    else if HoldsSettings(before, Target) && f.settingsMove == LandsInterrupted then SettingsOut
    else if f.activate == Fails then
      (if HoldsSettings(before, Target) then SettingsOut else if had then Aside else Unchanged)
    else if f.activate == LandsInterrupted || !f.targetVerifies then InPlace
    else if had && f.removeBackup.Stuck? then Removing
    else Done
  }

  predicate FlagsAt(stage: Stage, before: Folder, f: Faults, p: Progress) {
    && (p.raised <==> stage != Done)
    && (p.backedUp <==> Target in before && stage != Unchanged && f.setAside == Lands)
    && (p.activated <==> (stage.InPlace? || stage.Removing? || stage.Done?) && f.activate == Lands)
    && (stage.SettingsOut? || stage.Removing? || (stage.InPlace? && Target in before) ==> p.backedUp)
    && (stage.Removing? ==> p.activated)
  }

  /** What is known of the folder in which an installation stopped. */
  predicate Stopped(before: Folder, at: Folder, source: Body, f: Faults, p: Progress) {
    var stage := StopsAt(before, f);
    && At(stage, before, at, source) && FlagsAt(stage, before, f, p)
    && (stage == Removing ==> f.removeBackup.Stuck? && (Backup in at <==> f.removeBackup.root))
    && (stage == Removing && Backup in at ==> at[Backup].body == Restrict(before[Target].body, f.removeBackup.keep))
  }

  // ---------------------------------------------------------------- installing

  /** Sets the old tree and its settings aside. */
  method SetAside(folder: PluginFolder, ghost before: Folder, source: Body, f: Faults)
    returns (raised: bool, backedUp: bool, ghost stage: Stage)
    requires At(Unchanged, before, folder.slots, source) && Target in before
    requires Staging in folder.slots && folder.slots[Staging] == Tree(source, None) && f.targetIsLocal
    modifies folder
    ensures Follows(old(folder.trail), folder.trail, SettingsAt(before, Target))
    ensures At(stage, before, folder.slots, source)
    ensures backedUp <==> f.setAside == Lands
    ensures stage == (if f.setAside == Fails then Unchanged
                      else if f.setAside == LandsInterrupted then Aside
                      else if HoldsSettings(before, Target) && f.settingsRegular && f.settingsMove != Fails then SettingsOut
                      else Aside)
    ensures raised <==> f.setAside != Lands
                        || (HoldsSettings(before, Target) && (!f.settingsRegular || f.settingsMove != Lands))
  {
    stage, backedUp := Unchanged, false;
    raised := folder.Rename(Target, Backup, f.setAside);
    if f.setAside != Fails { stage := Aside; }
    StagesKeepSettings(stage, before, folder.slots, source);
    if raised { return; }
    backedUp := true;
    if HoldsSettings(folder.slots, Backup) {
      if !f.settingsRegular { return true, backedUp, stage; }
      raised := folder.MoveSettings(Backup, Staging, f.settingsMove);
      if f.settingsMove != Fails { stage := SettingsOut; }
      StagesKeepSettings(stage, before, folder.slots, source);
    }
  }

  /** The try block. */
  method TryInstall(folder: PluginFolder, ghost before: Folder, source: Body, f: Faults) returns (p: Progress)
    requires folder.slots == before && Staging !in before && Backup !in before && Failed !in before
    modifies folder
    ensures Follows(old(folder.trail), folder.trail, SettingsAt(before, Target))
    ensures Stopped(before, folder.slots, source, f, p)
  {
    p := Progress(true, false, false);
    var raised := folder.CopyTree(source, f.copy);
    StagesKeepSettings(Unchanged, before, folder.slots, source);
    if raised || !f.stagingVerifies { return; }
    if Target in folder.slots {
      if !f.targetIsLocal { return; }
      var backedUp; ghost var stage;
      raised, backedUp, stage := SetAside(folder, before, source, f);
      p := p.(backedUp := backedUp);
      if raised { return; }
    }
    var activated;
    raised, activated := Activate(folder, before, source, f, p.backedUp);
    p := p.(raised := raised, activated := activated);
  }

  /** The new tree is complete and the old one out of the way. */
  predicate Ready(before: Folder, now: Folder, source: Body) {
    && Target !in now && Failed !in now
    && Staging in now && now[Staging] == Tree(source, SettingsAt(before, Target))
    && (if Target in before then Backup in now && now[Backup] == Tree(before[Target].body, None) else Backup !in now)
  }

  method Activate(folder: PluginFolder, ghost before: Folder, source: Body, f: Faults, backedUp: bool)
    returns (raised: bool, activated: bool)
    requires Ready(before, folder.slots, source) && (backedUp <==> Target in before)
    modifies folder
    ensures Follows(old(folder.trail), folder.trail, SettingsAt(before, Target))
    ensures activated <==> f.activate == Lands
    ensures raised <==> !(activated && f.targetVerifies && (Target in before ==> f.removeBackup.Removed?))
    ensures f.activate == Fails ==> Ready(before, folder.slots, source)
    ensures f.activate == LandsInterrupted || (activated && !f.targetVerifies) ==> At(InPlace, before, folder.slots, source)
    ensures raised && activated && f.targetVerifies ==>
      && At(Removing, before, folder.slots, source)
      && (Backup in folder.slots <==> f.removeBackup.root)
      && (Backup in folder.slots ==>
            folder.slots[Backup].body == Restrict(before[Target].body, f.removeBackup.keep))
    ensures !raised ==> At(Done, before, folder.slots, source)
  {
    activated := false;
    KeptByOne(folder.slots, Staging, SettingsAt(before, Target));
    raised := folder.Rename(Staging, Target, f.activate);
    KeptByOne(folder.slots, if f.activate == Fails then Staging else Target, SettingsAt(before, Target));
    if raised { return; }
    activated := true;
    if !f.targetVerifies { return true, activated; }
    if backedUp && Backup in folder.slots {
      if HoldsSettings(folder.slots, Backup) { return true, activated; }
      raised := folder.RemoveTree(Backup, f.removeBackup);
      KeptByOne(folder.slots, Target, SettingsAt(before, Target));
    }
  }

  // ---------------------------------------------------------------- rolling back

  /** A lapse that the flags do not show, or a backup that is already damaged:
      the rollback can then not bring the old tree back. */
  predicate Slipped(before: Folder, at: Folder, stage: Stage, p: Progress) {
    || (stage == Aside && !p.backedUp)
    || (stage == InPlace && !p.activated)
    || (stage == Removing && !(Backup in at && Target in before && at[Backup].body == before[Target].body))
  }

  /** The new tree differs from the one it replaces. */
  predicate Changes(before: Folder, source: Body) {
    Target in before ==> before[Target].body != source
  }

  predicate RollbackLands(f: Faults) {
    f.retire == Lands && f.returnRegular && f.settingsReturn == Lands && f.restore == Lands
  }

  /** What a rollback finds and may leave: the settings are in one place, no
      tree but the new one is in the way, and nothing else was invented. */
  lemma KeptByOne(now: Folder, place: Slot, settings: Option<Id>)
    requires settings.Some? ==> HoldsSettings(now, place)
    requires forall slot :: HoldsSettings(now, slot) ==> slot == place && SettingsAt(now, slot) == settings
    ensures Kept(now, settings)
  {
  }

  function AfterRetiring(at: Folder, f: Faults, p: Progress): Folder {
    if p.activated && f.retire != Fails && Target in at then (at - {Target})[Failed := at[Target]] else at
  }

  /** Moves a new tree that was activated out of the way. */
  method Retire(folder: PluginFolder, ghost before: Folder, source: Body, f: Faults, p: Progress, ghost stage: Stage)
    returns (errors: bool, candidate: Slot)
    requires At(stage, before, folder.slots, source) && FlagsAt(stage, before, f, p) && p.raised
    modifies folder
    ensures Follows(old(folder.trail), folder.trail, SettingsAt(before, Target))
    ensures errors <==> p.activated && f.retire != Lands
    ensures candidate == CandidateOf(f, p)
    ensures folder.slots == AfterRetiring(old(folder.slots), f, p)
  {
    errors, candidate := false, if p.activated && Target in folder.slots then Target else Staging;
    if p.activated && Target in folder.slots {
      var raised := folder.Rename(Target, Failed, f.retire);
      StagesKeepSettings(stage, before, old(folder.slots), source);
      if f.retire != Fails { KeptByOne(folder.slots, Failed, SettingsAt(before, Target)); }
      if raised { errors := true; } else { candidate := Failed; }
    }
  }

  predicate Returnable(mid: Folder, candidate: Slot) {
    Backup in mid && candidate != Backup && HoldsSettings(mid, candidate) && !HoldsSettings(mid, Backup)
  }

  function AfterReturning(mid: Folder, candidate: Slot, f: Faults): Folder {
    if Returnable(mid, candidate) && f.returnRegular && f.settingsReturn != Fails then
      mid[candidate := mid[candidate].(settings := None)]
         [Backup := mid[Backup].(settings := mid[candidate].settings)]
    else mid
  }

  function AfterRestoring(mid: Folder, f: Faults): Folder {
    if Backup in mid && Target !in mid && f.restore != Fails then (mid - {Backup})[Target := mid[Backup]] else mid
  }

  /** The rollback of a tree that was set aside reports an error. */
  predicate GivingBackErrs(mid: Folder, candidate: Slot, f: Faults) {
    Backup in mid &&
    ((Returnable(mid, candidate) && !(f.returnRegular && f.settingsReturn == Lands))
     || Target in mid || f.restore != Lands)
  }

  /** Where the settings are after a retirement. */
  function SettingsPlace(stage: Stage, f: Faults, p: Progress): Slot {
    match stage
    case Aside => Backup
    case SettingsOut => Staging
    case _ => if p.activated && f.retire != Fails then Failed else Target
  }

  function CandidateOf(f: Faults, p: Progress): Slot {
    if !p.activated then Staging else if f.retire == Lands then Failed else Target
  }

  /** The settings are here, and nowhere else. */
  ghost predicate OnlyAt(now: Folder, place: Slot, settings: Option<Id>) {
    && (settings.Some? ==> HoldsSettings(now, place))
    && forall slot :: HoldsSettings(now, slot) ==> slot == place && SettingsAt(now, slot) == settings
  }

  lemma RetiredSettings(before: Folder, at: Folder, source: Body, f: Faults, p: Progress, stage: Stage)
    requires At(stage, before, at, source) && FlagsAt(stage, before, f, p) && p.raised
    ensures OnlyAt(AfterRetiring(at, f, p), if stage == Unchanged then Target else SettingsPlace(stage, f, p),
                   SettingsAt(before, Target))
  {
    var now := AfterRetiring(at, f, p);
    forall slot ensures slot in now ==> (slot == Failed || slot in at) {
      match slot { case Target => case Staging => case Backup => case Failed => }
    }
  }

  lemma ReturnedSettings(mid: Folder, candidate: Slot, f: Faults, place: Slot, settings: Option<Id>)
    requires OnlyAt(mid, place, settings)
    ensures OnlyAt(AfterReturning(mid, candidate, f), place, settings)
            || OnlyAt(AfterReturning(mid, candidate, f), Backup, settings)
  {
    var now := AfterReturning(mid, candidate, f);
    if now != mid {
      forall slot ensures HoldsSettings(now, slot) ==> slot == Backup && SettingsAt(now, slot) == settings {
        assert HoldsSettings(mid, slot) ==> slot == candidate;
      }
    }
  }

  lemma RestoredSettings(mid: Folder, f: Faults, place: Slot, settings: Option<Id>)
    requires OnlyAt(mid, place, settings)
    ensures OnlyAt(AfterRestoring(mid, f), place, settings) || OnlyAt(AfterRestoring(mid, f), Target, settings)
  {
    var now := AfterRestoring(mid, f);
    if now != mid {
      var place' := if place == Backup then Target else place;
      forall slot ensures HoldsSettings(now, slot) ==> slot == place' && SettingsAt(now, slot) == settings {
        assert HoldsSettings(mid, slot) ==> slot == place;
        assert HoldsSettings(mid, Backup) ==> Backup == place;
      }
      assert settings.Some? ==> HoldsSettings(now, place');
    }
  }

  /** Gives the settings back to the old tree and the old tree its name. */
  method GiveBack(folder: PluginFolder, f: Faults, candidate: Slot, ghost place: Slot, ghost settings: Option<Id>)
    returns (errors: bool)
    requires candidate != Backup && OnlyAt(folder.slots, place, settings)
    modifies folder
    ensures Follows(old(folder.trail), folder.trail, settings)
    ensures folder.slots == AfterRestoring(AfterReturning(old(folder.slots), candidate, f), f)
    ensures errors <==> GivingBackErrs(old(folder.slots), candidate, f)
    ensures exists place' :: OnlyAt(folder.slots, place', settings)
  {
    errors := ReturnSettings(folder, f, candidate, place, settings);
    ghost var now := if OnlyAt(folder.slots, place, settings) then place else Backup;
    RestoredSettings(folder.slots, f, now, settings);
    if Backup in folder.slots {
      if Target !in folder.slots {
        var raised := folder.Rename(Backup, Target, f.restore);
        errors := errors || raised;
      } else {
        errors := true;
      }
    }
  }

  method ReturnSettings(folder: PluginFolder, f: Faults, candidate: Slot, ghost place: Slot, ghost settings: Option<Id>)
    returns (errors: bool)
    requires candidate != Backup && OnlyAt(folder.slots, place, settings)
    modifies folder
    ensures Follows(old(folder.trail), folder.trail, settings)
    ensures folder.slots == AfterReturning(old(folder.slots), candidate, f)
    ensures OnlyAt(folder.slots, place, settings) || OnlyAt(folder.slots, Backup, settings)
    ensures errors <==>
      Returnable(old(folder.slots), candidate) && !(f.returnRegular && f.settingsReturn == Lands)
  {
    errors := false;
    ReturnedSettings(folder.slots, candidate, f, place, settings);
    if Backup in folder.slots && HoldsSettings(folder.slots, candidate) && !HoldsSettings(folder.slots, Backup) {
      if !f.returnRegular { return true; }
      errors := folder.MoveSettings(candidate, Backup, f.settingsReturn);
    }
  }

  /** The folder after a rollback, up to the discarding of what is left. */
  function RolledBack(at: Folder, f: Faults, p: Progress): Folder {
    var mid := AfterRetiring(at, f, p);
    if p.backedUp then AfterRestoring(AfterReturning(mid, CandidateOf(f, p), f), f) else mid
  }

  predicate RollbackErrs(at: Folder, f: Faults, p: Progress) {
    || (p.activated && f.retire != Lands)
    || (p.backedUp && GivingBackErrs(AfterRetiring(at, f, p), CandidateOf(f, p), f))
  }

  /** What a rollback that was told of everything achieves. */
  lemma GivingBackRestores(before: Folder, at: Folder, source: Body, f: Faults, p: Progress, stage: Stage)
    requires At(stage, before, at, source) && FlagsAt(stage, before, f, p) && p.raised && p.backedUp
    requires !Slipped(before, at, stage, p) && (p.activated ==> f.retire == Lands)
    requires !GivingBackErrs(AfterRetiring(at, f, p), CandidateOf(f, p), f)
    ensures Restored(before, AfterRestoring(AfterReturning(AfterRetiring(at, f, p), CandidateOf(f, p), f), f))
  {
  }

  lemma LandedRollbackReportsNothing(before: Folder, at: Folder, source: Body, f: Faults, p: Progress, stage: Stage)
    requires At(stage, before, at, source) && FlagsAt(stage, before, f, p) && p.raised && p.backedUp
    requires !Slipped(before, at, stage, p) && RollbackLands(f)
    ensures !GivingBackErrs(AfterRetiring(at, f, p), CandidateOf(f, p), f)
  {
  }

  lemma SlippedIsNotRestored(before: Folder, at: Folder, source: Body, f: Faults, p: Progress, stage: Stage)
    requires At(stage, before, at, source) && FlagsAt(stage, before, f, p) && p.raised && p.backedUp
    requires Slipped(before, at, stage, p) && Changes(before, source)
    ensures !Restored(before, AfterRestoring(AfterReturning(AfterRetiring(at, f, p), CandidateOf(f, p), f), f))
  {
  }

  /** Deletes a leftover tree unless it holds the settings; errors are ignored. */
  method Discard(folder: PluginFolder, slot: Slot, removal: Removal, ghost place: Slot, ghost settings: Option<Id>)
    requires OnlyAt(folder.slots, place, settings)
    modifies folder
    ensures Follows(old(folder.trail), folder.trail, settings)
    ensures OnlyAt(folder.slots, place, settings)
    ensures forall other :: other != slot ==>
      (other in folder.slots <==> other in old(folder.slots))
      && (other in folder.slots ==> folder.slots[other] == old(folder.slots)[other])
    ensures Locations(folder.slots) == Locations(old(folder.slots))
  {
    if slot in folder.slots && !HoldsSettings(folder.slots, slot) {
      ghost var was := folder.slots;
      var ignored := folder.RemoveTree(slot, removal);
      forall other ensures SettingsAt(folder.slots, other) == SettingsAt(was, other) {}
      assert forall other :: HoldsSettings(folder.slots, other) <==> HoldsSettings(was, other);
    }
  }

  lemma UnflaggedRollback(before: Folder, at: Folder, source: Body, f: Faults, p: Progress, stage: Stage)
    requires At(stage, before, at, source) && FlagsAt(stage, before, f, p) && p.raised && !p.backedUp
    ensures !Slipped(before, at, stage, p) && (p.activated ==> f.retire == Lands) ==>
              Restored(before, AfterRetiring(at, f, p))
    ensures Slipped(before, at, stage, p) ==> !Restored(before, AfterRetiring(at, f, p))
  {
  }

  method Rollback(folder: PluginFolder, ghost before: Folder, source: Body, f: Faults, p: Progress, ghost stage: Stage)
    returns (locations: Option<seq<Slot>>)
    requires At(stage, before, folder.slots, source) && FlagsAt(stage, before, f, p) && p.raised
    modifies folder
    ensures Follows(old(folder.trail), folder.trail, SettingsAt(before, Target))
    ensures exists place :: OnlyAt(folder.slots, place, SettingsAt(before, Target))
    ensures locations.Some? ==> locations.value == Locations(folder.slots)
    ensures locations.Some? <==> RollbackErrs(old(folder.slots), f, p)
    ensures forall slot :: slot != Failed ==> SameAt(folder.slots, RolledBack(old(folder.slots), f, p), slot)
    ensures !Slipped(before, old(folder.slots), stage, p) ==>
              (locations.None? ==> Restored(before, folder.slots)) && (RollbackLands(f) ==> locations.None?)
    ensures Slipped(before, old(folder.slots), stage, p) && Changes(before, source) ==> !Restored(before, folder.slots)
  {
    ghost var at := folder.slots;
    if p.backedUp {
      BackedUpRollback(before, at, source, f, p, stage);
    } else {
      UnflaggedRollback(before, at, source, f, p, stage);
    }
    locations := TakeRollbackSteps(folder, before, source, f, p, stage);
    assert SameAt(folder.slots, RolledBack(at, f, p), Target);
  }

  /** The steps of a rollback; each is tried, and an error is only remembered. */
  method TakeRollbackSteps(folder: PluginFolder, ghost before: Folder, source: Body, f: Faults, p: Progress, ghost stage: Stage)
    returns (locations: Option<seq<Slot>>)
    requires At(stage, before, folder.slots, source) && FlagsAt(stage, before, f, p) && p.raised
    modifies folder
    ensures Follows(old(folder.trail), folder.trail, SettingsAt(before, Target))
    ensures exists place :: OnlyAt(folder.slots, place, SettingsAt(before, Target))
    ensures locations.Some? ==> locations.value == Locations(folder.slots)
    ensures locations.Some? <==> RollbackErrs(old(folder.slots), f, p)
    ensures forall slot :: slot != Failed ==> SameAt(folder.slots, RolledBack(old(folder.slots), f, p), slot)
  {
    ghost var settings := SettingsAt(before, Target);
    RetiredSettings(before, folder.slots, source, f, p, stage);
    ghost var place := if stage == Unchanged then Target else SettingsPlace(stage, f, p);
    var errors, candidate := Retire(folder, before, source, f, p, stage);
    if p.backedUp {
      var more := GiveBack(folder, f, candidate, place, settings);
      place :| OnlyAt(folder.slots, place, settings);
      errors := errors || more;
    }
    Discard(folder, Failed, f.removeFailed, place, settings);
    locations := if errors then Some(Locations(folder.slots)) else None;
  }

  lemma BackedUpRollback(before: Folder, at: Folder, source: Body, f: Faults, p: Progress, stage: Stage)
    requires At(stage, before, at, source) && FlagsAt(stage, before, f, p) && p.raised && p.backedUp
    ensures
      var mid, candidate := AfterRetiring(at, f, p), CandidateOf(f, p);
      var now := AfterRestoring(AfterReturning(mid, candidate, f), f);
      && (!Slipped(before, at, stage, p) && (p.activated ==> f.retire == Lands) && !GivingBackErrs(mid, candidate, f) ==>
            Restored(before, now))
      && (!Slipped(before, at, stage, p) && RollbackLands(f) ==> !GivingBackErrs(mid, candidate, f))
      && (Slipped(before, at, stage, p) && Changes(before, source) ==> !Restored(before, now))
  {
    var mid, candidate := AfterRetiring(at, f, p), CandidateOf(f, p);
    if Slipped(before, at, stage, p) {
      if Changes(before, source) { SlippedIsNotRestored(before, at, source, f, p, stage); }
    } else {
      if (p.activated ==> f.retire == Lands) && !GivingBackErrs(mid, candidate, f) {
        GivingBackRestores(before, at, source, f, p, stage);
      }
      if RollbackLands(f) { LandedRollbackReportsNothing(before, at, source, f, p, stage); }
    }
  }

  predicate SameAt(a: Folder, b: Folder, slot: Slot) {
    (slot in a <==> slot in b) && (slot in a ==> a[slot] == b[slot])
  }

  // ---------------------------------------------------------------- the whole installation

  predicate SettingsReturn(before: Folder, f: Faults) {
    SettingsAt(before, Target).Some? ==> f.returnRegular && f.settingsReturn == Lands
  }

  /** The failures whose rollback is reported as incomplete. */
  predicate Reported(before: Folder, f: Faults) {
    match StopsAt(before, f)
    case Aside => f.setAside == Lands && f.restore != Lands
    case SettingsOut => !SettingsReturn(before, f) || f.restore != Lands
    case InPlace =>
      if f.activate == LandsInterrupted then Target in before
      else f.retire != Lands || (Target in before && (!SettingsReturn(before, f) || f.restore != Lands))
    case Removing =>
      f.retire != Lands || (f.removeBackup.Stuck? && f.removeBackup.root && (!SettingsReturn(before, f) || f.restore != Lands))
    case _ => false
  }

  /** Backup and settings both reach the target again. */
  predicate ComesBack(before: Folder, f: Faults) {
    && f.restore != Fails
    && (SettingsAt(before, Target).Some? ==> f.returnRegular && f.settingsReturn != Fails)
  }

  /** The runs after which the target is the old tree, or absent if it was:
      exactly these, when the new tree differs from the old one. */
  predicate Recovers(before: Folder, f: Faults) {
    match StopsAt(before, f)
    case Unchanged => true
    case Aside => f.setAside == Lands && f.restore != Fails
    case SettingsOut => ComesBack(before, f)
    case InPlace => f.activate == Lands && RetiredComesBack(before, f)
    case Removing => BackupSurvives(before, f) && RetiredComesBack(before, f)
    case Done => false
  }

  /** The new tree was moved away, and its settings went back; if the move was
      interrupted the rollback looks for them where they no longer are. */
  predicate RetiredComesBack(before: Folder, f: Faults) {
    && f.retire != Fails
    && (Target in before ==>
          ComesBack(before, f) && (f.retire == LandsInterrupted ==> SettingsAt(before, Target).None?))
  }

  predicate BackupSurvives(before: Folder, f: Faults) {
    f.removeBackup.Stuck? && f.removeBackup.root && Target in before
    && Restrict(before[Target].body, f.removeBackup.keep) == before[Target].body
  }

  lemma StopIsReported(before: Folder, at: Folder, source: Body, f: Faults, p: Progress)
    requires Stopped(before, at, source, f, p) && p.raised
    ensures RollbackErrs(at, f, p) <==> Reported(before, f)
  {
  }

  lemma StopRecovers(before: Folder, at: Folder, source: Body, f: Faults, p: Progress)
    requires Stopped(before, at, source, f, p) && p.raised
    ensures Recovers(before, f) ==> Restored(before, RolledBack(at, f, p))
    ensures Changes(before, source) && Restored(before, RolledBack(at, f, p)) ==> Recovers(before, f)
  {
  }

  /** Installs the tree. In every state it passes through, whatever fails, the
      settings that were in the target are in exactly one place. A success puts
      the new tree and the old settings in place and leaves no backup. Which
      failures are reported as incomplete rollbacks, and which of all failures
      leave the old target behind, is said exactly. An incomplete rollback names
      the one place where the settings are. */
  method Install(folder: PluginFolder, source: Body, f: Faults) returns (outcome: Outcome)
    requires Failed !in folder.slots
    modifies folder
    ensures Staging in old(folder.slots) || Backup in old(folder.slots) ==> outcome == Raised && unchanged(folder)
    ensures Staging !in old(folder.slots) && Backup !in old(folder.slots) ==>
              Result(old(folder.slots), folder.slots, old(folder.trail), folder.trail, source, f, outcome)
  {
    if Staging in folder.slots || Backup in folder.slots { return Raised; }
    ghost var before := folder.slots;
    outcome := TryOrRollback(folder, source, f);
    ghost var was := folder.slots;
    ghost var place :| OnlyAt(folder.slots, place, SettingsAt(before, Target));
    Discard(folder, Staging, f.removeStaging, place, SettingsAt(before, Target));
    SameEnd(before, was, folder.slots, source, f, outcome);
  }

  method TryOrRollback(folder: PluginFolder, source: Body, f: Faults) returns (outcome: Outcome)
    requires Staging !in folder.slots && Backup !in folder.slots && Failed !in folder.slots
    modifies folder
    ensures Follows(old(folder.trail), folder.trail, SettingsAt(old(folder.slots), Target))
    ensures exists place :: OnlyAt(folder.slots, place, SettingsAt(old(folder.slots), Target))
    ensures outcome == Installed <==> StopsAt(old(folder.slots), f) == Done
    ensures outcome == Installed ==> At(Done, old(folder.slots), folder.slots, source)
    ensures EndsAs(old(folder.slots), folder.slots, source, f, outcome)
    ensures outcome.RollbackIncomplete? ==> outcome.locations == Locations(folder.slots)
  {
    ghost var before := folder.slots;
    var p := TryInstall(folder, before, source, f);
    ghost var at := folder.slots;
    if !p.raised {
      SuccessEnds(before, at, source, f);
      return Installed;
    }
    var locations := Rollback(folder, before, source, f, p, StopsAt(before, f));
    outcome := if locations.Some? then RollbackIncomplete(locations.value) else Raised;
    assert SameAt(folder.slots, RolledBack(at, f, p), Target) && SameAt(folder.slots, RolledBack(at, f, p), Backup);
    FailureEnds(before, at, folder.slots, source, f, p, outcome);
  }

  lemma SuccessEnds(before: Folder, now: Folder, source: Body, f: Faults)
    requires StopsAt(before, f) == Done && At(Done, before, now, source)
    ensures EndsAs(before, now, source, f, Installed)
    ensures OnlyAt(now, Target, SettingsAt(before, Target))
  {
    forall slot ensures HoldsSettings(now, slot) ==> slot == Target {
      match slot { case Target => case Staging => case Backup => case Failed => }
    }
  }

  lemma SameEnd(before: Folder, was: Folder, now: Folder, source: Body, f: Faults, outcome: Outcome)
    requires EndsAs(before, was, source, f, outcome) && SameAt(now, was, Target) && SameAt(now, was, Backup)
    ensures EndsAs(before, now, source, f, outcome)
  {
  }

  /** A failure the flags do not show, or one that found the backup damaged. */
  predicate Unrecoverable(before: Folder, f: Faults) {
    match StopsAt(before, f)
    case Aside => f.setAside == LandsInterrupted
    case InPlace => f.activate == LandsInterrupted
    case Removing => !BackupSurvives(before, f)
    case _ => false
  }

  /** The failures that leave another target behind and do not report it: an
      interruption between a rename and its flag, except over an old tree at
      the activation, and a backup that was damaged before it came back. */
  predicate SilentLoss(before: Folder, f: Faults) {
    match StopsAt(before, f)
    case Aside => f.setAside == LandsInterrupted
    case InPlace => f.activate == LandsInterrupted && Target !in before
    case Removing =>
      && !BackupSurvives(before, f) && f.retire == Lands
      && (f.removeBackup.Stuck? && f.removeBackup.root ==> SettingsReturn(before, f) && f.restore == Lands)
    case _ => false
  }

  lemma SilentLossIff(before: Folder, f: Faults)
    ensures SilentLoss(before, f) <==> StopsAt(before, f) != Done && !Reported(before, f) && !Recovers(before, f)
  {
  }

  /** With every rollback step landing, exactly the recoverable failures recover;
      the others never do. */
  lemma RecoversIff(before: Folder, f: Faults)
    ensures Unrecoverable(before, f) ==> !Recovers(before, f)
    ensures StopsAt(before, f) != Done && RollbackLands(f) ==> (Recovers(before, f) <==> !Unrecoverable(before, f))
  {
  }

  /** Nothing fails. */
  const LANDING: Faults := Faults(
    Copied, true, true, Lands, true, Lands, Lands, true, Removed, Lands, true, Lands, Lands, Removed, Removed)

  /** Silent losses happen over every old tree: it suffices that the program is
      interrupted as it sets the tree aside. */
  lemma SilentLossOverAnyTree(tree: Tree)
    ensures SilentLoss(map[Target := tree], LANDING.(setAside := LandsInterrupted))
    ensures RollbackLands(LANDING.(setAside := LandsInterrupted))
  {
  }

  /** Such a run: the target is gone, the old tree waits in the backup with its
      settings, and the failure is raised without a recovery report. */
  method InterruptedSetAside(folder: PluginFolder, tree: Tree, source: Body) returns (outcome: Outcome)
    requires folder.slots == map[Target := tree]
    modifies folder
    ensures outcome == Raised && Target !in folder.slots
    ensures Backup in folder.slots && folder.slots[Backup] == tree
  {
    SilentLossOverAnyTree(tree);
    SilentLossIff(map[Target := tree], LANDING.(setAside := LandsInterrupted));
    outcome := Install(folder, source, LANDING.(setAside := LandsInterrupted));
  }

  ghost predicate Result(
    before: Folder, now: Folder, trail: seq<Folder>, trail': seq<Folder>, source: Body, f: Faults, outcome: Outcome)
  {
    var settings := SettingsAt(before, Target);
    && Follows(trail, trail', settings)
    && Kept(now, settings)
    && (outcome == Installed <==> StopsAt(before, f) == Done)
    && (outcome == Installed ==>
          Target in now && now[Target] == Tree(source, settings) && Backup !in now && Failed !in now)
    && EndsAs(before, now, source, f, outcome)
    && (outcome.RollbackIncomplete? ==> outcome.locations == Locations(now))
  }

  /** Which failures are reported, and which leave the target as it was. */
  predicate EndsAs(before: Folder, now: Folder, source: Body, f: Faults, outcome: Outcome) {
    && (outcome.RollbackIncomplete? <==> Reported(before, f))
    && (Recovers(before, f) ==> Restored(before, now))
    && (Restored(before, now) && Changes(before, source) ==> Recovers(before, f))
    && (outcome == Raised && !Unrecoverable(before, f) ==> Restored(before, now))
    && (Unrecoverable(before, f) && Changes(before, source) ==> !Restored(before, now))
    && (outcome != Installed && !Unrecoverable(before, f) && RollbackLands(f) ==>
          outcome == Raised && Restored(before, now))
    && (StopsAt(before, f) == Aside && f.setAside == LandsInterrupted ==>
          Target in before && Target !in now && Backup in now && now[Backup] == before[Target])
  }

  lemma FailureEnds(
    before: Folder, at: Folder, now: Folder, source: Body, f: Faults, p: Progress, outcome: Outcome)
    requires Stopped(before, at, source, f, p) && p.raised && outcome != Installed
    requires outcome.RollbackIncomplete? <==> RollbackErrs(at, f, p)
    requires SameAt(now, RolledBack(at, f, p), Target) && SameAt(now, RolledBack(at, f, p), Backup)
    ensures EndsAs(before, now, source, f, outcome)
  {
    StopIsReported(before, at, source, f, p);
    StopRecovers(before, at, source, f, p);
    SilentLossIff(before, f);
    RecoversIff(before, f);
    if StopsAt(before, f) == Aside && f.setAside == LandsInterrupted { AsideStays(before, at, source, f, p); }
  }

  lemma AsideStays(before: Folder, at: Folder, source: Body, f: Faults, p: Progress)
    requires Stopped(before, at, source, f, p) && StopsAt(before, f) == Aside && f.setAside == LandsInterrupted
    ensures Target in before && RolledBack(at, f, p) == at && Target !in at && Backup in at && at[Backup] == before[Target]
  {
  }

  /** With the settings kept, the recovery report names one place, or none if
      there were no settings. */
  lemma ReportNamesOnePlace(now: Folder, settings: Option<Id>)
    requires Kept(now, settings)
    ensures if settings.None? then Locations(now) == []
            else |Locations(now)| == 1 && SettingsAt(now, Locations(now)[0]) == settings
  {
    if settings.Some? {
      var place :| HoldsSettings(now, place);
      forall slot ensures HoldsSettings(now, slot) ==> slot == place {}
    }
  }
}
