/** The static configuration data of ec2instancespricing.py: region name
    translations, the instance-type family patterns, and the feed URLs with
    their per-URL operating system and utilization tags. */
module Tables {
  import opened Wrappers
  import PyText

  const DefaultCurrency: string := "USD"

  /** Feed-native region label (and every canonical id) to canonical region id. */
  const JsonNameToEc2RegionsApi: map<string, string> := map[
    "us-east" := "us-east-1",
    "us-east-1" := "us-east-1",
    "us-west" := "us-west-1",
    "us-west-1" := "us-west-1",
    "us-west-2" := "us-west-2",
    "eu-ireland" := "eu-west-1",
    "eu-west-1" := "eu-west-1",
    "eu-central-1" := "eu-central-1",
    "apac-sin" := "ap-southeast-1",
    "ap-southeast-1" := "ap-southeast-1",
    "ap-southeast-2" := "ap-southeast-2",
    "apac-syd" := "ap-southeast-2",
    "apac-tokyo" := "ap-northeast-1",
    "apac-seoul" := "ap-northeast-2",
    "ap-northeast-1" := "ap-northeast-1",
    "ap-northeast-2" := "ap-northeast-2",
    "sa-east-1" := "sa-east-1",
    "us-gov-west-1" := "us-gov-west-1",
    "ap-south-1" := "ap-south-1"
  ]

  /** Canonical region id to the label the spot and older feeds use. */
  const Ec2RegionsApiToJsonName: map<string, string> := map[
    "us-east-1" := "us-east",
    "us-west-1" := "us-west",
    "us-west-2" := "us-west-2",
    "eu-west-1" := "eu-ireland",
    "eu-central-1" := "eu-central-1",
    "ap-southeast-1" := "apac-sin",
    "ap-southeast-2" := "apac-syd",
    "ap-northeast-1" := "apac-tokyo",
    "ap-northeast-2" := "apac-seoul",
    "sa-east-1" := "sa-east-1",
    "us-gov-west-1" := "us-gov-west-1"
  ]

  /** The canonical ids are the values of the translation table. */
  ghost predicate IsCanonicalRegion(id: string) {
    id in JsonNameToEc2RegionsApi.Values
  }

  /** Every canonical id translates to itself, so translating a region twice
      (as the normalizer does) is the same as translating it once. */
  lemma CanonicalIdsAreFixedPoints()
    ensures forall k :: k in JsonNameToEc2RegionsApi ==>
              var id := JsonNameToEc2RegionsApi[k];
              id in JsonNameToEc2RegionsApi && JsonNameToEc2RegionsApi[id] == id
  {
    var m := JsonNameToEc2RegionsApi;
    var ids := {"us-east-1", "us-west-1", "us-west-2", "eu-west-1", "eu-central-1", "ap-southeast-1",
                "ap-southeast-2", "ap-northeast-1", "ap-northeast-2", "sa-east-1", "us-gov-west-1", "ap-south-1"};
    forall id | id in ids ensures id in m && m[id] == id {
    }
    forall k | k in m ensures m[k] in ids {
    }
  }


  /** Translating a canonical id to its feed label and back gives the id
      again, for every id the reverse table knows. */
  lemma ApiToJsonNameRoundTrip()
    ensures forall id :: id in Ec2RegionsApiToJsonName ==>
              var native := Ec2RegionsApiToJsonName[id];
              native in JsonNameToEc2RegionsApi && JsonNameToEc2RegionsApi[native] == id
  {
  }

  /** A family pattern of EC2_INSTANCE_TYPES_PATTERN: the regular expression
      `<family>\d\.<suffix>`. */
  datatype Pattern = Pattern(family: char, suffix: string)

  const Ec2InstanceTypesPattern: map<string, Pattern> := map[
    "t*.nano" := Pattern('t', "nano"),
    "t*.micro" := Pattern('t', "micro"),
    "t*.small" := Pattern('t', "small"),
    "t*.medium" := Pattern('t', "medium"),
    "t*.large" := Pattern('t', "large"),
    "m*.small" := Pattern('m', "small"),
    "m*.medium" := Pattern('m', "medium"),
    "m*.large" := Pattern('m', "large"),
    "m*.xlarge" := Pattern('m', "xlarge"),
    "m*.2xlarge" := Pattern('m', "2xlarge"),
    "m*.4xlarge" := Pattern('m', "4xlarge"),
    "m*.10xlarge" := Pattern('m', "10xlarge"),
    "c*.medium" := Pattern('c', "medium"),
    "c*.large" := Pattern('c', "large"),
    "c*.xlarge" := Pattern('c', "xlarge"),
    "c*.2xlarge" := Pattern('c', "2xlarge"),
    "c*.4xlarge" := Pattern('c', "4xlarge"),
    "c*.8xlarge" := Pattern('c', "8xlarge")
  ]

  /** `re.match(pattern, s)`: anchored at the start of `s` only, so anything
      may follow the suffix. */
  predicate PatternMatches(p: Pattern, s: string) {
    && |s| >= 3 + |p.suffix|
    && s[0] == p.family
    && PyText.IsDigit(s[1])
    && s[2] == '.'
    && s[3..3 + |p.suffix|] == p.suffix
  }

  /** Examples of the start-anchored pattern match: "m*.large" accepts
      "m3.large" but not "m3.xlarge"; "c*.8xlarge" accepts "c4.8xlarge" but
      not "cc2.8xlarge". */
  lemma PatternTableExamples()
    ensures PatternMatches(Ec2InstanceTypesPattern["m*.large"], "m3.large")
    ensures !PatternMatches(Ec2InstanceTypesPattern["m*.large"], "m3.xlarge")
    ensures PatternMatches(Ec2InstanceTypesPattern["c*.8xlarge"], "c4.8xlarge")
    ensures !PatternMatches(Ec2InstanceTypesPattern["c*.8xlarge"], "cc2.8xlarge")
  {
    assert "m3.xlarge"[3..8][0] == 'x' != "large"[0];
  }

  const InstancesSpotInstanceUrl := "http://spot-price.s3.amazonaws.com/spot.js"

  const InstancesOnDemandLinuxUrl := "http://a0.awsstatic.com/pricing/1/ec2/linux-od.min.js"
  const InstancesOnDemandRhelUrl := "http://a0.awsstatic.com/pricing/1/ec2/rhel-od.min.js"
  const InstancesOnDemandSlesUrl := "http://a0.awsstatic.com/pricing/1/ec2/sles-od.min.js"
  const InstancesOnDemandWindowsUrl := "http://a0.awsstatic.com/pricing/1/ec2/mswin-od.min.js"
  const InstancesOnDemandWinSqlUrl := "http://a0.awsstatic.com/pricing/1/ec2/mswinSQL-od.min.js"
  const InstancesOnDemandWinSqlWebUrl := "http://a0.awsstatic.com/pricing/1/ec2/mswinSQLWeb-od.min.js"

  const InstancesReservedLightUtilizationLinuxUrl := "http://aws-assets-pricing-prod.s3.amazonaws.com/pricing/ec2/linux-ri-light.js"
  const InstancesReservedLightUtilizationRhelUrl := "http://aws-assets-pricing-prod.s3.amazonaws.com/pricing/ec2/rhel-ri-light.js"
  const InstancesReservedLightUtilizationSlesUrl := "http://aws-assets-pricing-prod.s3.amazonaws.com/pricing/ec2/sles-ri-light.js"
  const InstancesReservedLightUtilizationWindowsUrl := "http://aws-assets-pricing-prod.s3.amazonaws.com/pricing/ec2/mswin-ri-light.js"
  const InstancesReservedLightUtilizationWinSqlUrl := "http://aws-assets-pricing-prod.s3.amazonaws.com/pricing/ec2/mswinSQL-ri-light.js"
  const InstancesReservedLightUtilizationWinSqlWebUrl := "http://aws-assets-pricing-prod.s3.amazonaws.com/pricing/ec2/mswinSQLWeb-ri-light.js"

  const InstancesReservedMediumUtilizationLinuxUrl := "http://aws-assets-pricing-prod.s3.amazonaws.com/pricing/ec2/linux-ri-medium.js"
  const InstancesReservedMediumUtilizationRhelUrl := "http://aws-assets-pricing-prod.s3.amazonaws.com/pricing/ec2/rhel-ri-medium.js"
  const InstancesReservedMediumUtilizationSlesUrl := "http://aws-assets-pricing-prod.s3.amazonaws.com/pricing/ec2/sles-ri-medium.js"
  const InstancesReservedMediumUtilizationWindowsUrl := "http://aws-assets-pricing-prod.s3.amazonaws.com/pricing/ec2/mswin-ri-medium.js"
  const InstancesReservedMediumUtilizationWinSqlUrl := "http://aws-assets-pricing-prod.s3.amazonaws.com/pricing/ec2/mswinSQL-ri-medium.js"
  const InstancesReservedMediumUtilizationWinSqlWebUrl := "http://aws-assets-pricing-prod.s3.amazonaws.com/pricing/ec2/mswinSQLWeb-ri-medium.js"

  const InstancesReservedHeavyUtilizationLinuxUrl := "http://aws-assets-pricing-prod.s3.amazonaws.com/pricing/ec2/linux-ri-heavy.js"
  const InstancesReservedHeavyUtilizationRhelUrl := "http://aws-assets-pricing-prod.s3.amazonaws.com/pricing/ec2/rhel-ri-heavy.js"
  const InstancesReservedHeavyUtilizationSlesUrl := "http://aws-assets-pricing-prod.s3.amazonaws.com/pricing/ec2/sles-ri-heavy.js"
  const InstancesReservedHeavyUtilizationWindowsUrl := "http://aws-assets-pricing-prod.s3.amazonaws.com/pricing/ec2/mswin-ri-heavy.js"
  const InstancesReservedHeavyUtilizationWinSqlUrl := "http://aws-assets-pricing-prod.s3.amazonaws.com/pricing/ec2/mswinSQL-ri-heavy.js"
  const InstancesReservedHeavyUtilizationWinSqlWebUrl := "http://aws-assets-pricing-prod.s3.amazonaws.com/pricing/ec2/mswinSQLWeb-ri-heavy.js"

  const InstancesUsedByEmrUrl := "http://a0.awsstatic.com/pricing/1/emr/pricing-emr.min.js"
  const InstancesElbUrl := "http://a0.awsstatic.com/pricing/1/ec2/pricing-elb.min.js"

  /** The eighteen reserved feeds, in the order get_ec2_reserved_instances_prices lists them. */
  const ReservedUrls: seq<string> := [
    InstancesReservedLightUtilizationLinuxUrl,
    InstancesReservedLightUtilizationRhelUrl,
    InstancesReservedLightUtilizationSlesUrl,
    InstancesReservedLightUtilizationWindowsUrl,
    InstancesReservedLightUtilizationWinSqlUrl,
    InstancesReservedLightUtilizationWinSqlWebUrl,
    InstancesReservedMediumUtilizationLinuxUrl,
    InstancesReservedMediumUtilizationRhelUrl,
    InstancesReservedMediumUtilizationSlesUrl,
    InstancesReservedMediumUtilizationWindowsUrl,
    InstancesReservedMediumUtilizationWinSqlUrl,
    InstancesReservedMediumUtilizationWinSqlWebUrl,
    InstancesReservedHeavyUtilizationLinuxUrl,
    InstancesReservedHeavyUtilizationRhelUrl,
    InstancesReservedHeavyUtilizationSlesUrl,
    InstancesReservedHeavyUtilizationWindowsUrl,
    InstancesReservedHeavyUtilizationWinSqlUrl,
    InstancesReservedHeavyUtilizationWinSqlWebUrl
  ]

  const InstancesReservedOsTypeByUrl: map<string, string> := map[
    InstancesReservedLightUtilizationLinuxUrl := "linux",
    InstancesReservedLightUtilizationRhelUrl := "rhel",
    InstancesReservedLightUtilizationSlesUrl := "sles",
    InstancesReservedLightUtilizationWindowsUrl := "mswin",
    InstancesReservedLightUtilizationWinSqlUrl := "mswinSQL",
    InstancesReservedLightUtilizationWinSqlWebUrl := "mswinSQLWeb",
    InstancesReservedMediumUtilizationLinuxUrl := "linux",
    InstancesReservedMediumUtilizationRhelUrl := "rhel",
    InstancesReservedMediumUtilizationSlesUrl := "sles",
    InstancesReservedMediumUtilizationWindowsUrl := "mswin",
    InstancesReservedMediumUtilizationWinSqlUrl := "mswinSQL",
    InstancesReservedMediumUtilizationWinSqlWebUrl := "mswinSQLWeb",
    InstancesReservedHeavyUtilizationLinuxUrl := "linux",
    InstancesReservedHeavyUtilizationRhelUrl := "rhel",
    InstancesReservedHeavyUtilizationSlesUrl := "sles",
    InstancesReservedHeavyUtilizationWindowsUrl := "mswin",
    InstancesReservedHeavyUtilizationWinSqlUrl := "mswinSQL",
    InstancesReservedHeavyUtilizationWinSqlWebUrl := "mswinSQLWeb"
  ]

  const InstancesReservedUtilizationTypeByUrl: map<string, string> := map[
    InstancesReservedLightUtilizationLinuxUrl := "light",
    InstancesReservedLightUtilizationRhelUrl := "light",
    InstancesReservedLightUtilizationSlesUrl := "light",
    InstancesReservedLightUtilizationWindowsUrl := "light",
    InstancesReservedLightUtilizationWinSqlUrl := "light",
    InstancesReservedLightUtilizationWinSqlWebUrl := "light",
    InstancesReservedMediumUtilizationLinuxUrl := "medium",
    InstancesReservedMediumUtilizationRhelUrl := "medium",
    InstancesReservedMediumUtilizationSlesUrl := "medium",
    InstancesReservedMediumUtilizationWindowsUrl := "medium",
    InstancesReservedMediumUtilizationWinSqlUrl := "medium",
    InstancesReservedMediumUtilizationWinSqlWebUrl := "medium",
    InstancesReservedHeavyUtilizationLinuxUrl := "heavy",
    InstancesReservedHeavyUtilizationRhelUrl := "heavy",
    InstancesReservedHeavyUtilizationSlesUrl := "heavy",
    InstancesReservedHeavyUtilizationWindowsUrl := "heavy",
    InstancesReservedHeavyUtilizationWinSqlUrl := "heavy",
    InstancesReservedHeavyUtilizationWinSqlWebUrl := "heavy"
  ]

  /** INSTANCES_ONDEMAND_OS_TYPE_BY_URL: the OS each on-demand feed prices. */
  const InstancesOnDemandOsTypeByUrl: map<string, string> := map[
    InstancesOnDemandLinuxUrl := "linux",
    InstancesOnDemandRhelUrl := "rhel",
    InstancesOnDemandSlesUrl := "sles",
    InstancesOnDemandWindowsUrl := "mswin",
    InstancesOnDemandWinSqlUrl := "mswinSQL",
    InstancesOnDemandWinSqlWebUrl := "mswinSQLWeb"
  ]

  /** The on-demand feeds, in the order they are read. */
  const OnDemandUrls: seq<string> := [
    InstancesOnDemandLinuxUrl, InstancesOnDemandRhelUrl, InstancesOnDemandSlesUrl,
    InstancesOnDemandWindowsUrl, InstancesOnDemandWinSqlUrl, InstancesOnDemandWinSqlWebUrl
  ]
}
