/** OTP storage and counters, and the two calls that register a user. */
module Registration {
  import opened Common
  import opened Redis

  const RATE_LIMIT_MAX := 5
  const RATE_LIMIT_WINDOW := 3600
  const OTP_ATTEMPT_LIMIT := 5

  datatype RegData = RegData(firstName: string, lastName: string, email: string, hashedPassword: string)

  /** The four kinds of key. A stored OTP stands for its bcrypt hash: comparing succeeds exactly on the same OTP. */
  datatype Store = Store(
    otp: map<string, Entry<string>>,
    reg: map<string, Entry<RegData>>,
    attempts: map<string, Entry<int>>,
    rate: map<string, Entry<int>>)

  const EMPTY := Store(map[], map[], map[], map[])

  datatype RegistrationError =
    | UserAlreadyExists
    | RateLimitExceeded
    | KafkaPublishFailed
    | OtpExpired
    | OtpLocked
    | OtpInvalid
    | RegistrationSessionExpired
    | EmailTaken

  /** INCR, and EXPIRE on the first hit of a window. */
  function Counted(counters: map<string, Entry<int>>, k: string, seconds: int, now: int): map<string, Entry<int>> {
    var hit := Incr(counters, k, now);
    if hit[k].value == 1 then Expire(hit, k, seconds, now) else hit
  }

  function StoreOtpStep(st: Store, ttl: int, email: string, otp: string, sessionId: string, now: int)
    : (Store, Result<string, RegistrationError>)
  {
    var st := st.(rate := Counted(st.rate, email, RATE_LIMIT_WINDOW, now));
    if st.rate[email].value > RATE_LIMIT_MAX then (st, Err(RateLimitExceeded))
    else (st.(otp := st.otp[sessionId := Entry(otp, Ttl(now, ttl))]), Ok(sessionId))
  }

  function StoreRegStep(st: Store, ttl: int, sessionId: string, data: RegData, now: int): Store {
    st.(reg := st.reg[sessionId := Entry(data, Ttl(now, ttl))])
  }

  function DeleteStep(st: Store, sessionId: string): Store {
    st.(otp := st.otp - {sessionId}, reg := st.reg - {sessionId})
  }

  function VerifyOtpStep(st: Store, ttl: int, sessionId: string, otp: string, now: int)
    : (Store, Result<(), RegistrationError>)
  {
    if !Has(st.otp, sessionId, now) then (st, Err(OtpExpired))
    else
      var stored := st.otp[sessionId].value;
      var st := st.(attempts := Counted(st.attempts, sessionId, ttl, now));
      if st.attempts[sessionId].value > OTP_ATTEMPT_LIMIT then (st.(otp := st.otp - {sessionId}), Err(OtpLocked))
      else if otp != stored then (st, Err(OtpInvalid))
      else (st.(attempts := st.attempts - {sessionId}), Ok(()))
  }

  /**
   * A user row as created: from which data, under which OTP session, on which OTP. The repository does not pass
   * `emailVerified` on, so the column keeps its default.
   */
  datatype User = User(data: RegData, sessionId: string, otp: string, emailVerified: bool)

  function VerifyStep(st: Store, users: map<string, User>, ttl: int, sessionId: string, otp: string,
                      cleanupWorks: bool, now: int)
    : (Store, map<string, User>, Result<User, RegistrationError>)
  {
    var (st, verified) := VerifyOtpStep(st, ttl, sessionId, otp, now);
    if verified.Err? then (st, users, Err(verified.error))
    else
      var data := Get(st.reg, sessionId, now);
      if data.None? then (st, users, Err(RegistrationSessionExpired))
      else if data.value.email in users then (st, users, Err(EmailTaken))
      else
        var user := User(data.value, sessionId, otp, false);
        (if cleanupWorks then DeleteStep(st, sessionId) else st, users[data.value.email := user], Ok(user))
  }

  /** The static OTP service over its Redis keys. */
  class OtpService {
    const ttl: int
    var otp: map<string, Entry<string>>
    var reg: map<string, Entry<RegData>>
    var attempts: map<string, Entry<int>>
    var rate: map<string, Entry<int>>

    ghost function Snapshot(): Store
      reads this
    {
      Store(otp, reg, attempts, rate)
    }

    constructor (ttl: int)
      requires ttl > 0
      ensures this.ttl == ttl && Snapshot() == EMPTY
    {
      this.ttl := ttl;
      otp, reg, attempts, rate := map[], map[], map[], map[];
    }

    /** `sessionId` is the new UUID. */
    method StoreOtp(email: string, code: string, sessionId: string, now: int)
      returns (r: Result<string, RegistrationError>)
      modifies this
      ensures (Snapshot(), r) == StoreOtpStep(old(Snapshot()), ttl, email, code, sessionId, now)
    {
      rate := Incr(rate, email, now);
      var nextCount := rate[email].value;
      if nextCount == 1 {
        rate := Expire(rate, email, RATE_LIMIT_WINDOW, now);
      }
      if nextCount > RATE_LIMIT_MAX {
        return Err(RateLimitExceeded);
      }
      otp := otp[sessionId := Entry(code, Ttl(now, ttl))];
      r := Ok(sessionId);
    }

    method StoreRegistrationSession(sessionId: string, data: RegData, now: int)
      modifies this
      ensures Snapshot() == StoreRegStep(old(Snapshot()), ttl, sessionId, data, now)
    {
      reg := reg[sessionId := Entry(data, Ttl(now, ttl))];
    }

    method GetRegistrationSession(sessionId: string, now: int) returns (r: Option<RegData>)
      ensures r == Get(Snapshot().reg, sessionId, now)
    {
      r := Get(reg, sessionId, now);
    }

    method DeleteRegistrationSession(sessionId: string)
      modifies this
      ensures Snapshot() == DeleteStep(old(Snapshot()), sessionId)
    {
      otp := otp - {sessionId};
      reg := reg - {sessionId};
    }

    method VerifyOtp(sessionId: string, code: string, now: int) returns (r: Result<(), RegistrationError>)
      modifies this
      ensures (Snapshot(), r) == VerifyOtpStep(old(Snapshot()), ttl, sessionId, code, now)
    {
      if !Has(otp, sessionId, now) {
        return Err(OtpExpired);
      }
      var hashedOtp := otp[sessionId].value;
      attempts := Incr(attempts, sessionId, now);
      var count := attempts[sessionId].value;
      if count == 1 {
        attempts := Expire(attempts, sessionId, ttl, now);
      }
      if count > OTP_ATTEMPT_LIMIT {
        otp := otp - {sessionId};
        return Err(OtpLocked);
      }
      if code != hashedOtp {
        return Err(OtpInvalid);
      }
      attempts := attempts - {sessionId};
      r := Ok(());
    }
  }

  /** The registration half of the auth service, with the user table it writes. */
  class RegistrationService {
    const otpService: OtpService
    var users: map<string, User>

    constructor (otpService: OtpService)
      ensures this.otpService == otpService && users == map[]
    {
      this.otpService := otpService;
      users := map[];
    }

    /** `stored`, `kept` and `published` are when the OTP is stored, the data is stored and Kafka answers. */
    method SendOtp(data: RegData, code: string, sessionId: string, publishWorks: bool, stored: int, kept: int)
      returns (r: Result<string, RegistrationError>)
      modifies otpService
      ensures data.email in users ==> r == Err(UserAlreadyExists) && otpService.Snapshot() == old(otpService.Snapshot())
      ensures data.email !in users ==>
        var (st, otp) := StoreOtpStep(old(otpService.Snapshot()), otpService.ttl, data.email, code, sessionId, stored);
        var both := StoreRegStep(st, otpService.ttl, sessionId, data, kept);
        && (r.Ok? <==> otp.Ok? && publishWorks)
        && (r.Ok? ==> r.value == sessionId && otpService.Snapshot() == both)
        && (r.Err? ==> r.error == if otp.Err? then RateLimitExceeded else KafkaPublishFailed)
        && (r.Err? ==> otpService.Snapshot() == if otp.Err? then st else DeleteStep(both, sessionId))
    {
      if data.email in users {
        return Err(UserAlreadyExists);
      }
      r := otpService.StoreOtp(data.email, code, sessionId, stored);
      if r.Err? {
        return;
      }
      otpService.StoreRegistrationSession(sessionId, data, kept);
      if !publishWorks {
        otpService.DeleteRegistrationSession(sessionId);
        return Err(KafkaPublishFailed);
      }
    }

    method VerifyAndRegister(sessionId: string, code: string, cleanupWorks: bool, now: int)
      returns (r: Result<User, RegistrationError>)
      modifies this, otpService
      ensures (otpService.Snapshot(), users, r) ==
        VerifyStep(old(otpService.Snapshot()), old(users), otpService.ttl, sessionId, code, cleanupWorks, now)
    {
      var verified := otpService.VerifyOtp(sessionId, code, now);
      if verified.Err? {
        return Err(verified.error);
      }
      var data := otpService.GetRegistrationSession(sessionId, now);
      if data.None? {
        return Err(RegistrationSessionExpired);
      }
      if data.value.email in users {
        return Err(EmailTaken);
      }
      var user := User(data.value, sessionId, code, false);
      users := users[data.value.email := user];
      if cleanupWorks {
        otpService.DeleteRegistrationSession(sessionId);
      }
      r := Ok(user);
    }
  }
}
