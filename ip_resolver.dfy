/** Resolution of the viewer's IP address, country and continent into the
    plugin object, from an explicit address, the CloudFlare headers, the
    connection address and the bundled GeoLite2 country database. */
module IpResolver {
  import opened PhpValues
  import AdServerPlugin

  const ConnectingIpHeader: string := "HTTP_CF_CONNECTING_IP"
  const CountryHeader: string := "HTTP_CF_IPCOUNTRY"
  const RemoteAddr: string := "REMOTE_ADDR"
  /** The country database, relative to the plugin directory. */
  const DatabaseFile: string := "/lib/GeoLite2/GeoLite2-Country.mmdb"

  /** What the database reader does for (database path, address): a record
      with the country ISO code and continent code, or one of the two
      exceptions the resolver catches. */
  datatype CountryLookup =
    | Found(isoCode: string, continentCode: string)
    | AddressNotFound
    | InvalidDatabase

  /** The viewer fields of the plugin object. */
  datatype Viewer = Viewer(ipAddress: string, country: string, continent: string)

  /** `isset($_SERVER[$name]) && ! empty($_SERVER[$name])` */
  predicate HeaderSet(server: map<string, string>, name: string)
  {
    name in server && Truthy(server[name])
  }

  /** `$_SERVER[$name]`, "" when unset. */
  function ServerVar(server: map<string, string>, name: string): string
  {
    if name in server then server[name] else ""
  }

  /** `parse_geolite2_country`: a found record sets country and continent;
      either caught exception leaves the viewer as it was. */
  function GeoLite2Country(v: Viewer, path: string, reader: (string, string) -> CountryLookup): (r: Viewer)
    ensures r.ipAddress == v.ipAddress
    ensures reader(path + DatabaseFile, v.ipAddress).Found? ==>
              r.country == reader(path + DatabaseFile, v.ipAddress).isoCode &&
              r.continent == reader(path + DatabaseFile, v.ipAddress).continentCode
    ensures !reader(path + DatabaseFile, v.ipAddress).Found? ==> r == v
  {
    match reader(path + DatabaseFile, v.ipAddress)
    case Found(iso, continent) => v.(country := iso, continent := continent)
    case AddressNotFound => v
    case InvalidDatabase => v
  }

  /** The viewer after the resolver's constructor. The address: the explicit
      argument when non-empty, else the CloudFlare connecting-IP header when
      set and non-empty, else REMOTE_ADDR. The country: the CloudFlare
      country header when set and non-empty (continent untouched), else the
      database lookup on the chosen address. */
  function Resolved(prev: Viewer, ipArg: string, server: map<string, string>, path: string,
                    reader: (string, string) -> CountryLookup): (r: Viewer)
    ensures ipArg != "" ==> r.ipAddress == ipArg
    ensures ipArg == "" && HeaderSet(server, ConnectingIpHeader) ==> r.ipAddress == server[ConnectingIpHeader]
    ensures ipArg == "" && !HeaderSet(server, ConnectingIpHeader) ==> r.ipAddress == ServerVar(server, RemoteAddr)
    ensures HeaderSet(server, CountryHeader) ==>
              r.country == server[CountryHeader] && r.continent == prev.continent
    ensures !HeaderSet(server, CountryHeader) ==>
              r == GeoLite2Country(prev.(ipAddress := r.ipAddress), path, reader)
  {
    var ip :=
      if ipArg == "" then
        (if HeaderSet(server, ConnectingIpHeader) then server[ConnectingIpHeader] else ServerVar(server, RemoteAddr))
      else ipArg;
    var v := prev.(ipAddress := ip);
    if HeaderSet(server, CountryHeader) then v.(country := server[CountryHeader])
    else GeoLite2Country(v, path, reader)
  }

  /** A failed lookup keeps the previous country and continent whatever
      address was chosen, and neither exception escapes. */
  lemma LookupFailureKeepsLocation(prev: Viewer, ipArg: string, server: map<string, string>, path: string,
                                   reader: (string, string) -> CountryLookup)
    requires !HeaderSet(server, CountryHeader)
    requires !reader(path + DatabaseFile, Resolved(prev, ipArg, server, path, reader).ipAddress).Found?
    ensures Resolved(prev, ipArg, server, path, reader).country == prev.country
    ensures Resolved(prev, ipArg, server, path, reader).continent == prev.continent
  {
  }

  class AdServerIpResolver {
    var adServer: AdServerPlugin.AdServer

    /** Sets the viewer fields of `adServer`; nothing else of it changes. */
    constructor (adServer: AdServerPlugin.AdServer, ipAddress: string, server: map<string, string>,
                 reader: (string, string) -> CountryLookup)
      modifies adServer`ipAddress, adServer`country, adServer`continent
      ensures this.adServer == adServer
      ensures Viewer(adServer.ipAddress, adServer.country, adServer.continent) ==
              Resolved(old(Viewer(adServer.ipAddress, adServer.country, adServer.continent)),
                       ipAddress, server, adServer.path, reader)
    {
      this.adServer := adServer;
      new;
      if ipAddress == "" {
        if HeaderSet(server, ConnectingIpHeader) {
          adServer.ipAddress := server[ConnectingIpHeader];
        } else {
          adServer.ipAddress := ServerVar(server, RemoteAddr);
        }
      } else {
        adServer.ipAddress := ipAddress;
      }
      if HeaderSet(server, CountryHeader) {
        adServer.country := server[CountryHeader];
      } else {
        ParseGeolite2Country(reader);
      }
    }

    /** `parse_geolite2_country` on the plugin object. */
    method ParseGeolite2Country(reader: (string, string) -> CountryLookup)
      modifies adServer`country, adServer`continent
      ensures Viewer(adServer.ipAddress, adServer.country, adServer.continent) ==
              GeoLite2Country(old(Viewer(adServer.ipAddress, adServer.country, adServer.continent)),
                              adServer.path, reader)
    {
      var record := reader(adServer.path + DatabaseFile, adServer.ipAddress);
      match record
      case Found(iso, continent) =>
        adServer.country := iso;
        adServer.continent := continent;
      case AddressNotFound =>
      case InvalidDatabase =>
    }
  }
}
