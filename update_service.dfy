/** The update checker (src/update_service.cpp): a registry of observers,
    the decision taken on a version reply, and the download percentage.
    Observers are identified by number, and each call of an observer's
    onUpdateAvailable is recorded as a Notice in the `delivered` log. The
    network and the JSON parser are not modelled: a reply arrives already
    decoded into a Reply value. */
module Updates {
  import opened Wrappers
  import opened Lists
  import opened CInts

  /** The identity of an UpdateObserver object. */
  type ObserverId = nat

  /** One onUpdateAvailable(newVersion, downloadUrl) call. */
  datatype Notice = Notice(observer: ObserverId, version: string, url: string)

  /** A finished version request: a network error, a body that is not a
      JSON object, or an object with its string-valued fields. */
  datatype Reply = NetworkError | NotAnObject | Object(fields: map<string, string>)

  /** getCurrentVersion: the version of the running application. */
  const CurrentVersion := "1.0.0"

  /** The (version, download URL) pair a reply announces: present exactly
      when the reply is an object with both keys. */
  function Announced(reply: Reply): (r: Option<(string, string)>)
    ensures r.Some? <==> reply.Object? && "version" in reply.fields && "download_url" in reply.fields
    ensures r.Some? ==> r.value.0 == reply.fields["version"] && r.value.1 == reply.fields["download_url"]
  {
    match reply
    case Object(fields) =>
      if "version" in fields && "download_url" in fields then Some((fields["version"], fields["download_url"]))
      else None
    case _ => None
  }

  /** The calls notifyObservers makes: one per observer, in list order. */
  function Notices(observers: seq<ObserverId>, version: string, url: string): (r: seq<Notice>)
    ensures |r| == |observers|
    ensures forall i :: 0 <= i < |r| ==> r[i] == Notice(observers[i], version, url)
  {
    seq(|observers|, i requires 0 <= i < |observers| => Notice(observers[i], version, url))
  }

  /** How many of the notices go to observer o. */
  function NoticesTo(ns: seq<Notice>, o: ObserverId): nat
  {
    if |ns| == 0 then 0
    else NoticesTo(ns[..|ns| - 1], o) + if ns[|ns| - 1].observer == o then 1 else 0
  }

  /** Over a registry without duplicates every registered observer is told
      exactly once and nobody else is told. */
  lemma {:induction false} NotifiesEachOnce(observers: seq<ObserverId>, version: string, url: string, o: ObserverId)
    requires NoDuplicates(observers)
    ensures NoticesTo(Notices(observers, version, url), o) == if o in observers then 1 else 0
    decreases |observers|
  {
    if |observers| > 0 {
      var init := observers[..|observers| - 1];
      var ns := Notices(observers, version, url);
      assert ns[..|ns| - 1] == Notices(init, version, url);
      assert NoDuplicates(init);
      NotifiesEachOnce(init, version, url, o);
      assert observers == init + [observers[|observers| - 1]];
      assert observers[|observers| - 1] !in init;
    }
  }

  /** onDownloadProgress: the percentage it computes, and None when the
      total is not positive. The product is a qint64 and must not overflow;
      the quotient is truncated toward zero and then cast to a 32-bit int. */
  function Percentage(received: int, total: int): (r: Option<int>)
    requires InInt64(received) && InInt64(total)
    requires total > 0 ==> InInt64(received * 100)
    ensures r.Some? <==> total > 0
    ensures r.Some? ==> InInt32(r.value)
  {
    if total > 0 then Some(ToInt32(TruncDiv(received * 100, total))) else None
  }

  /** For a download in progress the percentage is the rounded-down share
      of the total, between 0 and 100. */
  lemma PercentageBounds(received: int, total: int)
    requires 0 <= received <= total < Two63 && total > 0
    requires received * 100 < Two63
    ensures Percentage(received, total) == Some(received * 100 / total)
    ensures 0 <= received * 100 / total <= 100
  {
    var x := received * 100;
    TruncDivOfNonNegative(x, total);
    ShareAtMostHundred(received, total, x);
  }

  lemma ShareAtMostHundred(received: int, total: int, x: int)
    requires 0 <= received <= total && total > 0 && x == received * 100
    ensures 0 <= x / total <= 100
  {
    var q := x / total;
    assert q * total <= x <= total * 100;
  }

  lemma DivMonotone(x: int, y: int, t: int)
    requires 0 <= x <= y && t > 0
    ensures x / t <= y / t
  {
    var qx, qy := x / t, y / t;
    assert qx * t <= x && y < (qy + 1) * t;
  }

  /** More bytes received never shows a lower percentage. */
  lemma PercentageMonotone(a: int, b: int, total: int)
    requires 0 <= a <= b <= total < Two63 && total > 0
    requires b * 100 < Two63
    ensures Percentage(a, total).value <= Percentage(b, total).value
  {
    PercentageBounds(a, total);
    PercentageBounds(b, total);
    DivMonotone(a * 100, b * 100, total);
  }

  class UpdateService {
    var observers: seq<ObserverId>
    var latestVersion: string
    var downloadUrl: string
    /** Every onUpdateAvailable call made so far, in order. */
    var delivered: seq<Notice>

    /** addObserver keeps the registry free of duplicates. */
    ghost predicate Valid()
      reads this
    {
      NoDuplicates(observers)
    }

    constructor ()
      ensures observers == [] && latestVersion == "" && downloadUrl == "" && delivered == []
      ensures Valid()
    {
      observers := [];
      latestVersion := "";
      downloadUrl := "";
      delivered := [];
    }

    /** addObserver: a new observer goes last; a registered one changes nothing. */
    method AddObserver(observer: ObserverId)
      modifies this
      ensures observers == AddAbsent(old(observers), observer)
      ensures observer in old(observers) ==> observers == old(observers)
      ensures observer !in old(observers) ==> observers == old(observers) + [observer]
      ensures latestVersion == old(latestVersion) && downloadUrl == old(downloadUrl) && delivered == old(delivered)
      ensures old(Valid()) ==> Valid()
    {
      if observer !in observers {
        observers := observers + [observer];
      }
    }

    /** removeObserver: every occurrence goes, the others keep their order. */
    method RemoveObserver(observer: ObserverId)
      modifies this
      ensures observers == RemoveAll(old(observers), observer)
      ensures observer !in observers
      ensures latestVersion == old(latestVersion) && downloadUrl == old(downloadUrl) && delivered == old(delivered)
      ensures old(Valid()) ==> Valid()
    {
      if Valid() {
        RemoveAllKeepsNoDuplicates(observers, observer);
      }
      observers := RemoveAll(observers, observer);
    }

    /** notifyObservers: each observer in turn is told the latest version
        and its download URL. */
    method NotifyObservers()
      modifies this
      ensures delivered == old(delivered) + Notices(observers, latestVersion, downloadUrl)
      ensures observers == old(observers) && latestVersion == old(latestVersion) && downloadUrl == old(downloadUrl)
    {
      var i := 0;
      while i < |observers|
        invariant 0 <= i <= |observers|
        invariant delivered == old(delivered) + Notices(observers[..i], latestVersion, downloadUrl)
        invariant observers == old(observers) && latestVersion == old(latestVersion) && downloadUrl == old(downloadUrl)
      {
        assert Notices(observers[..i + 1], latestVersion, downloadUrl)
          == Notices(observers[..i], latestVersion, downloadUrl) + [Notice(observers[i], latestVersion, downloadUrl)];
        delivered := delivered + [Notice(observers[i], latestVersion, downloadUrl)];
        i := i + 1;
      }
      assert observers[..i] == observers;
    }

    /** onNetworkReply: a reply that announces a version and a URL replaces
        both, and the observers are notified exactly when that version
        differs from the running one; any other reply changes nothing. */
    method OnNetworkReply(reply: Reply)
      modifies this
      ensures observers == old(observers)
      ensures Announced(reply).None? ==>
        latestVersion == old(latestVersion) && downloadUrl == old(downloadUrl) && delivered == old(delivered)
      ensures Announced(reply).Some? ==>
        var (version, url) := Announced(reply).value;
        && latestVersion == version && downloadUrl == url
        && delivered == old(delivered) + if version != CurrentVersion then Notices(observers, version, url) else []
    {
      if reply.Object? && "version" in reply.fields && "download_url" in reply.fields {
        latestVersion := reply.fields["version"];
        downloadUrl := reply.fields["download_url"];
        if latestVersion != CurrentVersion {
          NotifyObservers();
        }
      }
    }
  }
}
