// The system-call tables: a provider that numbers the system calls of an
// operating system, and a sandbox platform that says which system calls a
// sandbox may make and which of them need rights on their descriptor
// argument, with Capsicum's whitelist.
module SysCalls {

  /**
   * The function-static counter of SysCallProvider::addSysCall: there is
   * one for the whole program, so every provider draws its indices from it.
   */
  class IndexCounter {
    var next: int

    constructor ()
      ensures next == 0
    {
      next := 0;
    }
  }

  class SysCallProvider {
    var sysCalls: set<string>
    var sysCallToIdx: map<string, int>
    var idxToSysCall: map<int, string>
    const counter: IndexCounter

    /**
     * The known system calls are exactly the keys of the name-to-index map;
     * a name's index maps back to it, and every index in use is one the
     * counter, which never goes below 0, has already handed out. An index handed out earlier for a
     * name added twice keeps mapping to that name.
     */
    ghost predicate Valid()
      reads this, counter
    {
      && 0 <= counter.next
      && (forall s :: s in sysCalls <==> s in sysCallToIdx)
      && (forall s :: s in sysCallToIdx ==>
            0 <= sysCallToIdx[s] < counter.next
            && sysCallToIdx[s] in idxToSysCall && idxToSysCall[sysCallToIdx[s]] == s)
      && (forall i :: i in idxToSysCall ==> 0 <= i < counter.next && idxToSysCall[i] in sysCalls)
    }

    constructor (c: IndexCounter)
      requires c.next >= 0
      ensures counter == c && Valid()
      ensures sysCalls == {} && sysCallToIdx == map[] && idxToSysCall == map[]
    {
      counter := c;
      sysCalls, sysCallToIdx, idxToSysCall := {}, map[], map[];
    }

    /** isSysCall: whether the name was added. */
    predicate IsSysCall(s: string)
      reads this
    {
      s in sysCalls
    }

    /**
     * getIdx: the index last given to the name, -1 for a name never added;
     * in a valid provider that index names the system call again.
     */
    function GetIdx(s: string): (r: int)
      reads this, counter
      ensures Valid() ==> (r >= 0 <==> IsSysCall(s))
      ensures Valid() ==> (r == -1 <==> !IsSysCall(s))
      ensures Valid() && r >= 0 ==> GetSysCall(r) == s
    {
      if s in sysCallToIdx then sysCallToIdx[s] else -1
    }

    /**
     * getSysCall: the name at an index, "" for an index not in use; in a
     * valid provider every name found is a known system call.
     */
    function GetSysCall(i: int): (r: string)
      reads this, counter
      ensures Valid() && i in idxToSysCall ==> IsSysCall(r)
      ensures i !in idxToSysCall ==> r == ""
    {
      if i in idxToSysCall then idxToSysCall[i] else ""
    }

    /**
     * addSysCall: the name gets the shared counter as its index, in both
     * directions, and the counter moves on. Adding a name again gives it a
     * fresh index; its earlier index still maps to it.
     */
    method AddSysCall(s: string)
      modifies this, counter
      ensures sysCalls == old(sysCalls) + {s}
      ensures sysCallToIdx == old(sysCallToIdx)[s := old(counter.next)]
      ensures idxToSysCall == old(idxToSysCall)[old(counter.next) := s]
      ensures counter.next == old(counter.next) + 1
      ensures old(Valid()) ==> Valid() && GetIdx(s) == old(counter.next) && GetSysCall(GetIdx(s)) == s
      ensures old(Valid()) && s in old(sysCallToIdx) ==>
        GetIdx(s) != old(GetIdx(s)) && GetSysCall(old(GetIdx(s))) == s
    {
      sysCalls := sysCalls + {s};
      sysCallToIdx := sysCallToIdx[s := counter.next];
      idxToSysCall := idxToSysCall[counter.next := s];
      counter.next := counter.next + 1;
    }
  }

  /**
   * Another provider drawing an index from the shared counter leaves this
   * one valid: the counter only grows.
   */
  twostate lemma CounterGrowthKeepsValid(p: SysCallProvider)
    requires old(p.Valid())
    requires unchanged(p)
    requires old(p.counter.next) <= p.counter.next
    ensures p.Valid()
  {
  }

  // ---------------------------------------------------------------------
  // Sandbox platforms

  class SandboxPlatform {
    var permitted: set<string>
    var reqFDRights: set<string>

    /** A system call needing descriptor rights is always a permitted one. */
    ghost predicate Valid()
      reads this
    {
      reqFDRights <= permitted
    }

    /** The platform with nothing permitted yet. */
    constructor ()
      ensures Valid() && permitted == {} && reqFDRights == {}
    {
      permitted, reqFDRights := {}, {};
    }

    /** isSysCallPermitted: whether the name was added. */
    predicate IsSysCallPermitted(n: string)
      reads this
    {
      n in permitted
    }

    /** doesSysCallRequireFDRights: whether the name was added as needing
        rights; in a valid platform only a permitted call can. */
    function DoesSysCallRequireFDRights(n: string): (r: bool)
      reads this
      ensures Valid() && r ==> IsSysCallPermitted(n)
    {
      n in reqFDRights
    }

    /** doesProvideProtection: every platform protects. */
    function DoesProvideProtection(): (r: bool)
      ensures r
    {
      true
    }

    /**
     * addPermittedSysCall: the name becomes permitted, and needs descriptor
     * rights when `reqFD` says so. Adding a name again changes nothing it
     * already had.
     */
    method AddPermittedSysCall(n: string, reqFD: bool)
      modifies this
      ensures permitted == old(permitted) + {n}
      ensures reqFDRights == if reqFD then old(reqFDRights) + {n} else old(reqFDRights)
      ensures old(Valid()) ==> Valid()
    {
      permitted := permitted + {n};
      if reqFD {
        reqFDRights := reqFDRights + {n};
      }
    }

    /** Capsicum's constructor: its whitelist, with only read and write
        needing descriptor rights. */
    constructor Capsicum()
      ensures Valid()
      ensures permitted == CapsicumWhitelist && reqFDRights == CapsicumFDCalls
    {
      permitted, reqFDRights := {}, {};
      new;
      AddPermittedSysCall("cap_enter", false);
      AddPermittedSysCall("cap_fcntls_get", false);
      assert permitted == {"cap_enter", "cap_fcntls_get"};
      AddPermittedSysCall("cap_fcntls_limit", false);
      AddPermittedSysCall("cap_getmode", false);
      assert permitted == {"cap_enter", "cap_fcntls_get", "cap_fcntls_limit", "cap_getmode"};
      AddPermittedSysCall("cap_ioctls_get", false);
      AddPermittedSysCall("cap_ioctls_limit", false);
      assert permitted == {"cap_enter", "cap_fcntls_get", "cap_fcntls_limit", "cap_getmode", "cap_ioctls_get", "cap_ioctls_limit"};
      AddPermittedSysCall("__cap_rights_get", false);
      AddPermittedSysCall("cap_rights_limit", false);
      assert permitted == {"cap_enter", "cap_fcntls_get", "cap_fcntls_limit", "cap_getmode", "cap_ioctls_get", "cap_ioctls_limit", "__cap_rights_get", "cap_rights_limit"};
      AddPermittedSysCall("dup", false);
      AddPermittedSysCall("dup2", false);
      assert permitted == {"cap_enter", "cap_fcntls_get", "cap_fcntls_limit", "cap_getmode", "cap_ioctls_get", "cap_ioctls_limit", "__cap_rights_get", "cap_rights_limit", "dup", "dup2"};
      AddPermittedSysCall("close", false);
      AddPermittedSysCall("exit", false);
      assert permitted == {"cap_enter", "cap_fcntls_get", "cap_fcntls_limit", "cap_getmode", "cap_ioctls_get", "cap_ioctls_limit", "__cap_rights_get", "cap_rights_limit", "dup", "dup2", "close", "exit"};
      AddPermittedSysCall("read", true);
      AddPermittedSysCall("write", true);
    }
  }

  /** The system calls Capsicum permits. */
  const CapsicumWhitelist: set<string> := {
    "cap_enter", "cap_fcntls_get", "cap_fcntls_limit", "cap_getmode",
    "cap_ioctls_get", "cap_ioctls_limit", "__cap_rights_get", "cap_rights_limit",
    "dup", "dup2", "close", "exit", "read", "write"
  }

  /** The ones of them that need rights on their descriptor argument. */
  const CapsicumFDCalls: set<string> := {"read", "write"}

  /** Capsicum permits fourteen system calls. */
  lemma CapsicumWhitelistSize()
    ensures |CapsicumWhitelist| == 14
  {
  }

  /**
   * Of them, read and write alone need descriptor rights; calls mentioned
   * only in its to-do list, such as open and openat, are not permitted.
   */
  lemma CapsicumWhitelistFacts()
    ensures CapsicumFDCalls <= CapsicumWhitelist
    ensures "open" !in CapsicumWhitelist && "openat" !in CapsicumWhitelist
  {
  }
}
