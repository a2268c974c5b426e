module SessionReuse {
  import opened LoginTypes

  /** SessionReuse.h: a detached user session of this display manager, of the requested type. */
  predicate CanReuse(p: Properties, requestedType: string) {
    (p.service == "gxdm" || p.service == "gxdm-autologin")
    && p.state == "online"
    && p.sessionClass == "user"
    && p.sessionType == requestedType
  }
}
