/**
 * The edge-gateway payload that the cleanup workflow reads from the source
 * org VDC before deleting its gateway, and the pure decision it takes from
 * that payload at the very end: whether the source external network's IP
 * pool gets the IP ranges that the deleted gateway's uplink used to hold.
 */
module EdgeGateways {

  /** One entry of an `ipRanges.values` list. */
  datatype IpRange = IpRange(startAddress: string, endAddress: string)

  /** One entry of an uplink's `subnets.values` list. */
  datatype Subnet = Subnet(ipRanges: seq<IpRange>)

  /** One entry of a gateway's `edgeGatewayUplinks` list. */
  datatype Uplink = Uplink(uplinkName: string, subnets: seq<Subnet>)

  /** One entry of the payload's `values` list. */
  datatype EdgeGateway = EdgeGateway(edgeGatewayUplinks: seq<Uplink>)

  /** The whole reply of the edge-gateway lookup. */
  datatype EdgeGatewayPayload = EdgeGatewayPayload(values: seq<EdgeGateway>)

  /**
   * What the end of the workflow does with the external network's IP pool:
   * nothing, an update with exactly these ranges, or an indexing error
   * (an empty gateway list or an empty subnet list is indexed at 0).
   */
  datatype IpPoolDecision = Skip | Update(ipRanges: seq<IpRange>) | IndexOutOfRange

  /**
   * The list comprehension that keeps, in order, the uplinks named after the
   * configured external network.
   */
  function SourceExternalNetworkUplinks(uplinks: seq<Uplink>, name: string): (r: seq<Uplink>)
    ensures |r| <= |uplinks|
    ensures forall k :: 0 <= k < |r| ==> r[k].uplinkName == name
    ensures forall u :: u in r ==> u in uplinks
    ensures forall u :: u in uplinks && u.uplinkName == name ==> u in r
  {
    if uplinks == [] then []
    else if uplinks[0].uplinkName == name then
      [uplinks[0]] + SourceExternalNetworkUplinks(uplinks[1..], name)
    else
      SourceExternalNetworkUplinks(uplinks[1..], name)
  }

  /**
   * The decision taken from the payload: only the first gateway is looked
   * at, only the first matching uplink, and only that uplink's first subnet.
   */
  function IpPoolUpdate(details: EdgeGatewayPayload, name: string): (d: IpPoolDecision)
    ensures d.Update? ==> d.ipRanges != []
  {
    if details.values == [] then IndexOutOfRange
    else
      var sourceExternalNetwork := SourceExternalNetworkUplinks(details.values[0].edgeGatewayUplinks, name);
      if sourceExternalNetwork == [] then Skip
      else if sourceExternalNetwork[0].subnets == [] then IndexOutOfRange
      else if sourceExternalNetwork[0].subnets[0].ipRanges == [] then Skip
      else Update(sourceExternalNetwork[0].subnets[0].ipRanges)
  }

  /**
   * The filter keeps each uplink named `name` exactly as many times as the
   * list holds it, and no other uplink.
   */
  lemma {:induction false} FilterCounts(uplinks: seq<Uplink>, name: string)
    ensures forall u :: multiset(SourceExternalNetworkUplinks(uplinks, name))[u] ==
                          if u.uplinkName == name then multiset(uplinks)[u] else 0
  {
    if uplinks != [] {
      FilterCounts(uplinks[1..], name);
      assert uplinks == [uplinks[0]] + uplinks[1..];
    }
  }

  /** `i` is the position of the first uplink named `name`. */
  ghost predicate IsFirstMatch(uplinks: seq<Uplink>, name: string, i: int)
  {
    && 0 <= i < |uplinks|
    && uplinks[i].uplinkName == name
    && forall j :: 0 <= j < i ==> uplinks[j].uplinkName != name
  }

  /** No uplink is named `name`. */
  ghost predicate NoMatch(uplinks: seq<Uplink>, name: string)
  {
    forall j :: 0 <= j < |uplinks| ==> uplinks[j].uplinkName != name
  }

  /** The filtered list is empty exactly when nothing matches, and otherwise starts with the first match. */
  lemma {:induction false} FilterHead(uplinks: seq<Uplink>, name: string)
    ensures SourceExternalNetworkUplinks(uplinks, name) == [] <==> NoMatch(uplinks, name)
    ensures SourceExternalNetworkUplinks(uplinks, name) != [] ==>
              exists i :: IsFirstMatch(uplinks, name, i) && uplinks[i] == SourceExternalNetworkUplinks(uplinks, name)[0]
  {
    if uplinks != [] {
      FilterHead(uplinks[1..], name);
      if uplinks[0].uplinkName == name {
        assert IsFirstMatch(uplinks, name, 0);
      } else if SourceExternalNetworkUplinks(uplinks, name) != [] {
        var i :| IsFirstMatch(uplinks[1..], name, i) && uplinks[1..][i] == SourceExternalNetworkUplinks(uplinks, name)[0];
        assert IsFirstMatch(uplinks, name, i + 1);
      } else {
        assert NoMatch(uplinks, name) by {
          forall j | 0 <= j < |uplinks| ensures uplinks[j].uplinkName != name {
            if j > 0 { assert uplinks[j] == uplinks[1..][j - 1]; }
          }
        }
      }
    }
  }

  /** There is at most one first match. */
  lemma FirstMatchUnique(uplinks: seq<Uplink>, name: string, i: int, j: int)
    requires IsFirstMatch(uplinks, name, i) && IsFirstMatch(uplinks, name, j)
    ensures i == j
  {
  }

  /**
   * The three outcomes of the decision, each characterised by the payload
   * alone: an update happens exactly when the first gateway has an uplink
   * named after the external network and the first subnet of the first such
   * uplink has a non-empty list of ranges, and then it carries exactly that
   * list; an empty gateway list, or a first match without subnets, is an
   * indexing error; every other payload is skipped.
   */
  lemma IpPoolUpdateCases(details: EdgeGatewayPayload, name: string)
    ensures IpPoolUpdate(details, name) == IndexOutOfRange <==>
              || details.values == []
              || exists i :: IsFirstMatch(details.values[0].edgeGatewayUplinks, name, i)
                             && details.values[0].edgeGatewayUplinks[i].subnets == []
    ensures IpPoolUpdate(details, name).Update? <==>
              && details.values != []
              && exists i :: IsFirstMatch(details.values[0].edgeGatewayUplinks, name, i)
                             && details.values[0].edgeGatewayUplinks[i].subnets != []
                             && details.values[0].edgeGatewayUplinks[i].subnets[0].ipRanges != []
    ensures IpPoolUpdate(details, name).Update? ==>
              exists i :: IsFirstMatch(details.values[0].edgeGatewayUplinks, name, i)
                          && IpPoolUpdate(details, name).ipRanges == details.values[0].edgeGatewayUplinks[i].subnets[0].ipRanges
    ensures IpPoolUpdate(details, name) == Skip <==>
              && details.values != []
              && (|| NoMatch(details.values[0].edgeGatewayUplinks, name)
                  || exists i :: IsFirstMatch(details.values[0].edgeGatewayUplinks, name, i)
                                 && details.values[0].edgeGatewayUplinks[i].subnets != []
                                 && details.values[0].edgeGatewayUplinks[i].subnets[0].ipRanges == [])
  {
    if details.values != [] {
      var uplinks := details.values[0].edgeGatewayUplinks;
      FilterHead(uplinks, name);
      var matching := SourceExternalNetworkUplinks(uplinks, name);
      if matching != [] {
        var i :| IsFirstMatch(uplinks, name, i) && uplinks[i] == matching[0];
        forall j | IsFirstMatch(uplinks, name, j) ensures j == i {
          FirstMatchUnique(uplinks, name, i, j);
        }
        assert !NoMatch(uplinks, name) by { assert uplinks[i].uplinkName == name; }
      }
    }
  }
}
