/** Device tokens: the push token registered for one user name, replaced
    whenever the device reports a new one. */
module DeviceTokens {
  import opened Common
  import opened Uuids

  datatype DeviceTokenData = DeviceTokenData(id: Uuid, userName: string, token: string, updatedAt: Time)

  /** `DeviceToken.init`. */
  function NewDeviceToken(id: Uuid, userName: string, token: string, now: Time): (d: DeviceTokenData)
    ensures d.id == id && d.userName == userName && d.token == token && d.updatedAt == now
  {
    DeviceTokenData(id, userName, token, now)
  }

  /** The effect of `updateToken(_:)` at time `now`: the token is replaced,
      the clock advances, the record keeps its id and user name. */
  function WithToken(d: DeviceTokenData, newToken: string, now: Time): (r: DeviceTokenData)
    ensures r.token == newToken && r.updatedAt == now
    ensures r.id == d.id && r.userName == d.userName
  {
    d.(token := newToken, updatedAt := now)
  }

  /** Two updates in a row leave the second: last write wins. */
  lemma LastUpdateWins(d: DeviceTokenData, t1: string, n1: Time, t2: string, n2: Time)
    ensures WithToken(WithToken(d, t1, n1), t2, n2) == WithToken(d, t2, n2)
  {
  }

  class DeviceToken {
    var id: Uuid
    var userName: string
    var token: string
    var updatedAt: Time

    function Data(): DeviceTokenData
      reads this
    {
      DeviceTokenData(id, userName, token, updatedAt)
    }

    constructor (id: Uuid, userName: string, token: string, now: Time)
      ensures Data() == NewDeviceToken(id, userName, token, now)
    {
      this.id := id;
      this.userName := userName;
      this.token := token;
      this.updatedAt := now;
    }

    method UpdateToken(newToken: string, now: Time)
      modifies this
      ensures Data() == WithToken(old(Data()), newToken, now)
    {
      token := newToken;
      updatedAt := now;
    }
  }
}
