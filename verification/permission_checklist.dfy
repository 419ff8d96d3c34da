/**
  * `PermissionChecklist`: one flag per permission, recording which permissions the
  * manifest declares. The struct's boolean fields are modelled as the set of
  * permissions whose flag is up.
  */
module PermissionChecklists {
  import opened Permissions

  class PermissionChecklist {
    /** The permissions whose flag is true. */
    var needed: set<Permission>

    /** `Default`: every flag false. */
    constructor ()
      ensures needed == {}
      ensures forall p: Permission :: !NeedsPermission(p)
    {
      needed := {};
    }

    /** `needs_permission`: reads the flag of `p` and changes nothing. */
    predicate NeedsPermission(p: Permission)
      reads this
    {
      p in needed
    }

    /**
      * `set_needs_permission`: raises the flag of `p`. Each arm writes only its own
      * field, so every other flag keeps its value; a raised flag stays raised.
      */
    method SetNeedsPermission(p: Permission)
      modifies this
      ensures NeedsPermission(p)
      ensures forall q: Permission :: q != p ==> (NeedsPermission(q) <==> old(NeedsPermission(q)))
      ensures old(NeedsPermission(p)) ==> needed == old(needed)
      ensures old(needed) <= needed
      ensures needed == old(needed) + {p}
    {
      needed := needed + {p};
    }
  }

  /**
    * A fresh checklist with INTERNET set answers true for INTERNET and false for
    * WRITE_EXTERNAL_STORAGE.
    */
  method ChecklistScenario() returns (internet: bool, storage: bool)
    ensures internet && !storage
  {
    var checklist := new PermissionChecklist();
    checklist.SetNeedsPermission(AndroidPermissionInternet);
    internet := checklist.NeedsPermission(AndroidPermissionInternet);
    storage := checklist.NeedsPermission(AndroidPermissionWriteExternalStorage);
  }
}
