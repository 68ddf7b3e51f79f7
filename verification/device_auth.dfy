/**
 * The one-device-per-account guard of the socket server: a session per user
 * id, recording the device, the socket and the time of the last accepted
 * check. A check from another device is refused and, once the socket server
 * is attached, both sockets are told.
 */
module DeviceAuth {
  import opened Common

  datatype DeviceSession = DeviceSession(userId: string, deviceId: string, socketId: string, timestamp: string)

  /** The two messages a refused check sends: to the refused socket, and to the socket already logged in. */
  datatype Notice =
    | ForceLogout(socketId: string)
    | DeviceNotification(socketId: string)

  class DeviceAuthService {
    var sessions: map<string, DeviceSession>
    /** Whether the socket server has been attached (`setIo`). */
    var ioAttached: bool

    /** Each session is filed under its own user id, so there is at most one per user. */
    ghost predicate Valid()
      reads this
    {
      forall u :: u in sessions ==> sessions[u].userId == u
    }

    constructor ()
      ensures sessions == map[] && !ioAttached && Valid()
    {
      sessions := map[];
      ioAttached := false;
    }

    method SetIo()
      modifies this
      ensures ioAttached && sessions == old(sessions)
    {
      ioAttached := true;
    }

    /**
     * `handleDeviceCheck`: a user with a session on another device is refused
     * and the stored session is kept (the two notices go out only once the
     * socket server is attached); otherwise the session is created or
     * overwritten with this device, socket and time.
     */
    method HandleDeviceCheck(socketId: string, userId: string, deviceId: string, timestamp: string)
      returns (allowed: bool, notices: seq<Notice>)
      requires Valid()
      modifies this
      ensures Valid() && ioAttached == old(ioAttached)
      ensures allowed <==> userId !in old(sessions) || old(sessions)[userId].deviceId == deviceId
      ensures allowed ==> sessions == old(sessions)[userId := DeviceSession(userId, deviceId, socketId, timestamp)] && notices == []
      ensures !allowed ==> sessions == old(sessions)
      ensures !allowed && ioAttached ==> notices == [ForceLogout(socketId), DeviceNotification(old(sessions)[userId].socketId)]
      ensures !allowed && !ioAttached ==> notices == []
      ensures allowed == old(IsValidSession(userId, deviceId))
      ensures IsValidSession(userId, deviceId) == allowed
    {
      if userId in sessions && sessions[userId].deviceId != deviceId {
        notices := [];
        if ioAttached {
          notices := [ForceLogout(socketId), DeviceNotification(sessions[userId].socketId)];
        }
        return false, notices;
      }
      sessions := sessions[userId := DeviceSession(userId, deviceId, socketId, timestamp)];
      return true, [];
    }

    /** `removeSession`: only that user's session goes; removing a missing one changes nothing. */
    method RemoveSession(userId: string)
      requires Valid()
      modifies this
      ensures Valid() && ioAttached == old(ioAttached)
      ensures sessions == old(sessions) - {userId}
      ensures userId !in old(sessions) ==> sessions == old(sessions)
    {
      sessions := sessions - {userId};
    }

    /** `getSession`: the stored session of the user, if any. */
    function GetSession(userId: string): (r: Option<DeviceSession>)
      reads this
      ensures r.Some? <==> userId in sessions
      ensures r.Some? ==> r.value == sessions[userId]
    {
      if userId in sessions then Some(sessions[userId]) else None
    }

    /** `isValidSession`: any device is valid for a user without a session; otherwise only the stored one. */
    predicate IsValidSession(userId: string, deviceId: string)
      reads this
    {
      userId !in sessions || sessions[userId].deviceId == deviceId
    }
  }

  /** Two devices of one account: the second is refused while the first is logged in, and admitted after it logs out. */
  method SecondDeviceWaitsForLogout() returns (whileFirst: bool, afterLogout: bool)
    ensures !whileFirst && afterLogout
  {
    var s := new DeviceAuthService();
    var ok, notices := s.HandleDeviceCheck("s1", "alice", "laptop", "t1");
    whileFirst, notices := s.HandleDeviceCheck("s2", "alice", "phone", "t2");
    s.RemoveSession("alice");
    afterLogout, notices := s.HandleDeviceCheck("s2", "alice", "phone", "t3");
  }
}
