// The User form's handlers for a Department Permission row: a new row starts
// readable and active, a stronger flag switches on the flags it needs, the
// last flag cannot be switched off, and a "valid upto" date before "valid
// from" is cleared.  Messages shown to the user are not modelled.

module UserForm {
  import opened Common
  import opened PermissionService

  /** After the `can_read` handler: with every flag off, read is switched back on. */
  function KeepOneFlag(f: Flags): (r: Flags)
  {
    if !(f.read || f.write || f.create || f.delete || f.submit || f.cancel || f.approve) then f.(read := true) else f
  }

  /** After a handler whose flag needs read: read is switched on when the flag is set. */
  function NeedsRead(f: Flags, on: bool): (r: Flags)
  {
    if on && !f.read then f.(read := true) else f
  }

  /** After a handler whose flag needs read and write: both are switched on when the flag is set. */
  function NeedsReadWrite(f: Flags, on: bool): (r: Flags)
  {
    if on then f.(read := true, write := true) else f
  }

  /** After the `valid_upto` handler: an end date before the start date is cleared. */
  function CheckedUpto(from: Option<int>, upto: Option<int>): (r: Option<int>)
  {
    if from.Some? && upto.Some? && upto.value < from.value then None else upto
  }

  /** One Department Permission row on the form. */
  class DepartmentPermissionRow {
    var department: string
    var canRead: bool
    var canWrite: bool
    var canCreate: bool
    var canDelete: bool
    var canSubmit: bool
    var canCancel: bool
    var canApprove: bool
    var isActive: bool
    var validFrom: Option<int>
    var validUpto: Option<int>

    function Flags(): Flags
      reads this
    {
      PermissionService.Flags(canRead, canWrite, canCreate, canDelete, canSubmit, canCancel, canApprove)
    }

    /** `department_permissions_add`: a new row is readable and active, with nothing else set. */
    constructor ()
      ensures Flags() == PermissionService.Flags(true, false, false, false, false, false, false)
      ensures isActive && department == "" && validFrom.None? && validUpto.None?
    {
      department := "";
      canRead := true;
      canWrite := false;
      canCreate := false;
      canDelete := false;
      canSubmit := false;
      canCancel := false;
      canApprove := false;
      isActive := true;
      validFrom := None;
      validUpto := None;
    }

    /** `can_read`. */
    method OnCanRead()
      modifies this
      ensures Flags() == KeepOneFlag(old(Flags()))
      ensures department == old(department) && isActive == old(isActive)
      ensures validFrom == old(validFrom) && validUpto == old(validUpto)
    {
      if !canRead && !canWrite && !canCreate && !canDelete && !canSubmit && !canCancel && !canApprove {
        canRead := true;
      }
    }

    /** `can_write`. */
    method OnCanWrite()
      modifies this
      ensures Flags() == NeedsRead(old(Flags()), old(canWrite))
      ensures department == old(department) && isActive == old(isActive)
      ensures validFrom == old(validFrom) && validUpto == old(validUpto)
    {
      if canWrite && !canRead {
        canRead := true;
      }
    }

    /** Switch on read and write when the triggering flag is set (shared by create, delete and submit). */
    method GrantReadWrite(on: bool)
      modifies this
      ensures Flags() == NeedsReadWrite(old(Flags()), on)
      ensures department == old(department) && isActive == old(isActive)
      ensures validFrom == old(validFrom) && validUpto == old(validUpto)
    {
      if on {
        if !canRead {
          canRead := true;
        }
        if !canWrite {
          canWrite := true;
        }
      }
    }

    /** `can_create`. */
    method OnCanCreate()
      modifies this
      ensures Flags() == NeedsReadWrite(old(Flags()), old(canCreate))
      ensures department == old(department) && isActive == old(isActive)
      ensures validFrom == old(validFrom) && validUpto == old(validUpto)
    {
      GrantReadWrite(canCreate);
    }

    /** `can_delete`. */
    method OnCanDelete()
      modifies this
      ensures Flags() == NeedsReadWrite(old(Flags()), old(canDelete))
      ensures department == old(department) && isActive == old(isActive)
      ensures validFrom == old(validFrom) && validUpto == old(validUpto)
    {
      GrantReadWrite(canDelete);
    }

    /** `can_submit`. */
    method OnCanSubmit()
      modifies this
      ensures Flags() == NeedsReadWrite(old(Flags()), old(canSubmit))
      ensures department == old(department) && isActive == old(isActive)
      ensures validFrom == old(validFrom) && validUpto == old(validUpto)
    {
      GrantReadWrite(canSubmit);
    }

    /** `can_cancel`. */
    method OnCanCancel()
      modifies this
      ensures Flags() == NeedsRead(old(Flags()), old(canCancel))
      ensures department == old(department) && isActive == old(isActive)
      ensures validFrom == old(validFrom) && validUpto == old(validUpto)
    {
      if canCancel && !canRead {
        canRead := true;
      }
    }

    /** `can_approve`. */
    method OnCanApprove()
      modifies this
      ensures Flags() == NeedsRead(old(Flags()), old(canApprove))
      ensures department == old(department) && isActive == old(isActive)
      ensures validFrom == old(validFrom) && validUpto == old(validUpto)
    {
      if canApprove && !canRead {
        canRead := true;
      }
    }

    /** `valid_upto`. */
    method OnValidUpto()
      modifies this
      ensures validUpto == CheckedUpto(old(validFrom), old(validUpto))
      ensures Flags() == old(Flags()) && validFrom == old(validFrom)
      ensures department == old(department) && isActive == old(isActive)
    {
      if validFrom.Some? && validUpto.Some? && validUpto.value < validFrom.value {
        validUpto := None;
      }
    }
  }

  /** The `can_read` handler leaves some flag on, keeps every set flag, and changes nothing when a flag is already on. */
  lemma KeepOneFlagMeans(f: Flags)
    ensures var r := KeepOneFlag(f);
      (r.read || r.write || r.create || r.delete || r.submit || r.cancel || r.approve)
      && r.write == f.write && r.create == f.create && r.delete == f.delete
      && r.submit == f.submit && r.cancel == f.cancel && r.approve == f.approve && (f.read ==> r.read)
    ensures (f.read || f.write || f.create || f.delete || f.submit || f.cancel || f.approve) ==> KeepOneFlag(f) == f
    ensures KeepOneFlag(KeepOneFlag(f)) == KeepOneFlag(f)
  {
  }

  /** A set flag that needs read ends with read on; an unset one changes nothing; a second run changes nothing. */
  lemma NeedsReadMeans(f: Flags, on: bool)
    ensures on ==> NeedsRead(f, on).read
    ensures !on ==> NeedsRead(f, on) == f
    ensures NeedsRead(f, on).(read := f.read) == f
    ensures NeedsRead(NeedsRead(f, on), on) == NeedsRead(f, on)
  {
  }

  /** A set flag that needs read and write ends with both on; an unset one changes nothing; a second run changes nothing. */
  lemma NeedsReadWriteMeans(f: Flags, on: bool)
    ensures on ==> NeedsReadWrite(f, on).read && NeedsReadWrite(f, on).write
    ensures !on ==> NeedsReadWrite(f, on) == f
    ensures NeedsReadWrite(f, on).(read := f.read, write := f.write) == f
    ensures NeedsReadWrite(NeedsReadWrite(f, on), on) == NeedsReadWrite(f, on)
  {
  }

  /** The end date is cleared exactly when both dates are set and it is before the start; equal dates are kept. */
  lemma CheckedUptoMeans(from: Option<int>, upto: Option<int>)
    ensures CheckedUpto(from, upto) != upto <==> from.Some? && upto.Some? && upto.value < from.value
    ensures CheckedUpto(from, upto).Some? ==> from.None? || from.value <= CheckedUpto(from, upto).value
    ensures CheckedUpto(from, CheckedUpto(from, upto)) == CheckedUpto(from, upto)
  {
  }
}
