/**
 * The password-reset token record of the membership app and its expiry test.
 *
 * Times are integer microseconds since an arbitrary epoch: that is the
 * resolution of the date-times the record stores, so the strict comparison
 * against "created plus one hour" is modelled exactly.
 */
module ResetTokens {

  /** One hour, in microseconds. */
  const OneHour: int := 3_600_000_000

  /** A stored reset token: the e-mail it was issued for, the token string
      (unique across the table) and the moment the row was created. */
  datatype ResetToken = ResetToken(email: string, token: string, createdAt: int)
  {
    /** A token is expired once strictly more than one hour has passed; it is
        never expired at or before its creation. */
    predicate IsExpired(now: int)
      ensures now <= createdAt ==> !IsExpired(now)
    {
      now > createdAt + OneHour
    }
  }

  /** Expiry is decided by elapsed time alone: the token is expired exactly
      when more than one hour has elapsed since it was created. */
  lemma ExpiredIffElapsedOverHour(t: ResetToken, now: int)
    ensures t.IsExpired(now) <==> now - t.createdAt > OneHour
  {
  }

  /** The comparison is strict: at exactly one hour the token still works,
      one microsecond later it does not. */
  lemma ExpiryBoundary(t: ResetToken)
    ensures !t.IsExpired(t.createdAt + OneHour)
    ensures t.IsExpired(t.createdAt + OneHour + 1)
  {
  }

  /** A token is usable during the whole first hour of its life. */
  lemma FreshDuringFirstHour(t: ResetToken, now: int)
    requires t.createdAt <= now <= t.createdAt + OneHour
    ensures !t.IsExpired(now)
  {
  }

  /** Once expired, a token stays expired. */
  lemma ExpiryIsMonotone(t: ResetToken, earlier: int, later: int)
    requires earlier <= later
    requires t.IsExpired(earlier)
    ensures t.IsExpired(later)
  {
  }
}
