/**
  The fixed reference tables the generator starts from: 28 Indian states with
  their regions, and 252 cities, each naming its state and its tier. The city
  table is one flat list in the generator; here it is written as one list per
  state, concatenated in the same order, so that its properties can be proved
  a state at a time.
 */
module ReferenceData {

  datatype Region = North | South | East | West | Central | Northeast

  datatype Tier = Tier1 | Tier2 | Tier3

  datatype StateInfo = StateInfo(stateName: string, region: Region)

  datatype CityInfo = CityInfo(cityName: string, stateName: string, tier: Tier)

  /** The state names, each written once. */
  const AndhraPradesh: string := "Andhra Pradesh"
  const ArunachalPradesh: string := "Arunachal Pradesh"
  const Assam: string := "Assam"
  const Bihar: string := "Bihar"
  const Chhattisgarh: string := "Chhattisgarh"
  const Goa: string := "Goa"
  const Gujarat: string := "Gujarat"
  const Haryana: string := "Haryana"
  const HimachalPradesh: string := "Himachal Pradesh"
  const Jharkhand: string := "Jharkhand"
  const Karnataka: string := "Karnataka"
  const Kerala: string := "Kerala"
  const MadhyaPradesh: string := "Madhya Pradesh"
  const Maharashtra: string := "Maharashtra"
  const Manipur: string := "Manipur"
  const Meghalaya: string := "Meghalaya"
  const Mizoram: string := "Mizoram"
  const Nagaland: string := "Nagaland"
  const Odisha: string := "Odisha"
  const Punjab: string := "Punjab"
  const Rajasthan: string := "Rajasthan"
  const Sikkim: string := "Sikkim"
  const TamilNadu: string := "Tamil Nadu"
  const Telangana: string := "Telangana"
  const Tripura: string := "Tripura"
  const UttarPradesh: string := "Uttar Pradesh"
  const Uttarakhand: string := "Uttarakhand"
  const WestBengal: string := "West Bengal"

  const IndianStates: seq<StateInfo> := [
    StateInfo(AndhraPradesh, South),
    StateInfo(ArunachalPradesh, Northeast),
    StateInfo(Assam, Northeast),
    StateInfo(Bihar, East),
    StateInfo(Chhattisgarh, Central),
    StateInfo(Goa, West),
    StateInfo(Gujarat, West),
    StateInfo(Haryana, North),
    StateInfo(HimachalPradesh, North),
    StateInfo(Jharkhand, East),
    StateInfo(Karnataka, South),
    StateInfo(Kerala, South),
    StateInfo(MadhyaPradesh, Central),
    StateInfo(Maharashtra, West),
    StateInfo(Manipur, Northeast),
    StateInfo(Meghalaya, Northeast),
    StateInfo(Mizoram, Northeast),
    StateInfo(Nagaland, Northeast),
    StateInfo(Odisha, East),
    StateInfo(Punjab, North),
    StateInfo(Rajasthan, North),
    StateInfo(Sikkim, Northeast),
    StateInfo(TamilNadu, South),
    StateInfo(Telangana, South),
    StateInfo(Tripura, Northeast),
    StateInfo(UttarPradesh, North),
    StateInfo(Uttarakhand, North),
    StateInfo(WestBengal, East)
  ]

  const AndhraPradeshCities: seq<CityInfo> := [
    CityInfo("Visakhapatnam", AndhraPradesh, Tier2),
    CityInfo("Vijayawada", AndhraPradesh, Tier2),
    CityInfo("Guntur", AndhraPradesh, Tier3),
    CityInfo("Tirupati", AndhraPradesh, Tier2),
    CityInfo("Kurnool", AndhraPradesh, Tier3),
    CityInfo("Nellore", AndhraPradesh, Tier3),
    CityInfo("Rajahmundry", AndhraPradesh, Tier3),
    CityInfo("Anantapur", AndhraPradesh, Tier3),
    CityInfo("Kadapa", AndhraPradesh, Tier3),
    CityInfo("Chittoor", AndhraPradesh, Tier3),
    CityInfo("Eluru", AndhraPradesh, Tier3),
    CityInfo("Srikakulam", AndhraPradesh, Tier3),
    CityInfo("Ongole", AndhraPradesh, Tier3),
    CityInfo("Proddatur", AndhraPradesh, Tier3),
    CityInfo("Nandyal", AndhraPradesh, Tier3),
    CityInfo("Kakinada", AndhraPradesh, Tier3),
    CityInfo("Bapatla", AndhraPradesh, Tier3),
    CityInfo("Tenali", AndhraPradesh, Tier3),
    CityInfo("Bhimavaram", AndhraPradesh, Tier3),
    CityInfo("Amalapuram", AndhraPradesh, Tier3)
  ]

  const ArunachalPradeshCities: seq<CityInfo> := [
    CityInfo("Itanagar", ArunachalPradesh, Tier3),
    CityInfo("Tawang", ArunachalPradesh, Tier3),
    CityInfo("Ziro", ArunachalPradesh, Tier3),
    CityInfo("Pasighat", ArunachalPradesh, Tier3),
    CityInfo("Naharlagun", ArunachalPradesh, Tier3),
    CityInfo("Roing", ArunachalPradesh, Tier3),
    CityInfo("Tezu", ArunachalPradesh, Tier3),
    CityInfo("Namsai", ArunachalPradesh, Tier3),
    CityInfo("Aalo", ArunachalPradesh, Tier3),
    CityInfo("Bomdila", ArunachalPradesh, Tier3),
    CityInfo("Seppa", ArunachalPradesh, Tier3),
    CityInfo("Yingkiong", ArunachalPradesh, Tier3),
    CityInfo("Changlang", ArunachalPradesh, Tier3)
  ]

  const AssamCities: seq<CityInfo> := [
    CityInfo("Guwahati", Assam, Tier2),
    CityInfo("Dibrugarh", Assam, Tier3),
    CityInfo("Jorhat", Assam, Tier3),
    CityInfo("Nagaon", Assam, Tier3),
    CityInfo("Silchar", Assam, Tier3),
    CityInfo("Tinsukia", Assam, Tier3),
    CityInfo("Bongaigaon", Assam, Tier3),
    CityInfo("Barpeta", Assam, Tier3),
    CityInfo("Tezpur", Assam, Tier3),
    CityInfo("Sivasagar", Assam, Tier3),
    CityInfo("Nalbari", Assam, Tier3),
    CityInfo("Dhemaji", Assam, Tier3),
    CityInfo("Goalpara", Assam, Tier3)
  ]

  const BiharCities: seq<CityInfo> := [
    CityInfo("Patna", Bihar, Tier2),
    CityInfo("Gaya", Bihar, Tier3),
    CityInfo("Bhagalpur", Bihar, Tier3),
    CityInfo("Muzaffarpur", Bihar, Tier3),
    CityInfo("Darbhanga", Bihar, Tier3),
    CityInfo("Munger", Bihar, Tier3),
    CityInfo("Begusarai", Bihar, Tier3),
    CityInfo("Purnia", Bihar, Tier3),
    CityInfo("Arrah", Bihar, Tier3),
    CityInfo("Siwan", Bihar, Tier3),
    CityInfo("Samastipur", Bihar, Tier3),
    CityInfo("Nalanda", Bihar, Tier3),
    CityInfo("Buxar", Bihar, Tier3)
  ]

  const ChhattisgarhCities: seq<CityInfo> := [
    CityInfo("Raipur", Chhattisgarh, Tier2),
    CityInfo("Bhilai", Chhattisgarh, Tier3),
    CityInfo("Bilaspur", Chhattisgarh, Tier3),
    CityInfo("Korba", Chhattisgarh, Tier3),
    CityInfo("Durg", Chhattisgarh, Tier3),
    CityInfo("Rajnandgaon", Chhattisgarh, Tier3),
    CityInfo("Raigarh", Chhattisgarh, Tier3),
    CityInfo("Jagdalpur", Chhattisgarh, Tier3),
    CityInfo("Ambikapur", Chhattisgarh, Tier3),
    CityInfo("Dhamtari", Chhattisgarh, Tier3)
  ]

  const GoaCities: seq<CityInfo> := [
    CityInfo("Panaji", Goa, Tier3),
    CityInfo("Vasco da Gama", Goa, Tier3),
    CityInfo("Margao", Goa, Tier3),
    CityInfo("Mapusa", Goa, Tier3),
    CityInfo("Ponda", Goa, Tier3),
    CityInfo("Bicholim", Goa, Tier3)
  ]

  const GujaratCities: seq<CityInfo> := [
    CityInfo("Ahmedabad", Gujarat, Tier1),
    CityInfo("Surat", Gujarat, Tier1),
    CityInfo("Vadodara", Gujarat, Tier2),
    CityInfo("Rajkot", Gujarat, Tier2),
    CityInfo("Gandhinagar", Gujarat, Tier3),
    CityInfo("Bhavnagar", Gujarat, Tier3),
    CityInfo("Jamnagar", Gujarat, Tier3),
    CityInfo("Junagadh", Gujarat, Tier3),
    CityInfo("Anand", Gujarat, Tier3),
    CityInfo("Nadiad", Gujarat, Tier3),
    CityInfo("Valsad", Gujarat, Tier3),
    CityInfo("Bharuch", Gujarat, Tier3),
    CityInfo("Porbandar", Gujarat, Tier3),
    CityInfo("Patan", Gujarat, Tier3)
  ]

  const HaryanaCities: seq<CityInfo> := [
    CityInfo("Faridabad", Haryana, Tier1),
    CityInfo("Gurgaon", Haryana, Tier1),
    CityInfo("Ambala", Haryana, Tier3),
    CityInfo("Hisar", Haryana, Tier3),
    CityInfo("Panipat", Haryana, Tier3),
    CityInfo("Rohtak", Haryana, Tier3),
    CityInfo("Karnal", Haryana, Tier3),
    CityInfo("Sonipat", Haryana, Tier3),
    CityInfo("Yamunanagar", Haryana, Tier3),
    CityInfo("Sirsa", Haryana, Tier3)
  ]

  const HimachalPradeshCities: seq<CityInfo> := [
    CityInfo("Shimla", HimachalPradesh, Tier3),
    CityInfo("Dharamshala", HimachalPradesh, Tier3),
    CityInfo("Manali", HimachalPradesh, Tier3),
    CityInfo("Solan", HimachalPradesh, Tier3),
    CityInfo("Kullu", HimachalPradesh, Tier3),
    CityInfo("Mandi", HimachalPradesh, Tier3),
    CityInfo("Nahan", HimachalPradesh, Tier3),
    CityInfo("Palampur", HimachalPradesh, Tier3),
    CityInfo("Bilaspur", HimachalPradesh, Tier3),
    CityInfo("Hamirpur", HimachalPradesh, Tier3)
  ]

  const JharkhandCities: seq<CityInfo> := [
    CityInfo("Ranchi", Jharkhand, Tier2),
    CityInfo("Jamshedpur", Jharkhand, Tier2),
    CityInfo("Dhanbad", Jharkhand, Tier3),
    CityInfo("Bokaro Steel City", Jharkhand, Tier3),
    CityInfo("Hazaribagh", Jharkhand, Tier3),
    CityInfo("Deoghar", Jharkhand, Tier3),
    CityInfo("Dumka", Jharkhand, Tier3),
    CityInfo("Giridih", Jharkhand, Tier3),
    CityInfo("Chaibasa", Jharkhand, Tier3)
  ]

  const KarnatakaCities: seq<CityInfo> := [
    CityInfo("Bengaluru", Karnataka, Tier1),
    CityInfo("Mysuru", Karnataka, Tier2),
    CityInfo("Mangaluru", Karnataka, Tier2),
    CityInfo("Hubballi", Karnataka, Tier3),
    CityInfo("Belagavi", Karnataka, Tier3),
    CityInfo("Davangere", Karnataka, Tier3),
    CityInfo("Ballari", Karnataka, Tier3),
    CityInfo("Tumakuru", Karnataka, Tier3),
    CityInfo("Udupi", Karnataka, Tier3),
    CityInfo("Chikkamagaluru", Karnataka, Tier3)
  ]

  const KeralaCities: seq<CityInfo> := [
    CityInfo("Thiruvananthapuram", Kerala, Tier2),
    CityInfo("Kochi", Kerala, Tier1),
    CityInfo("Kozhikode", Kerala, Tier2),
    CityInfo("Thrissur", Kerala, Tier3),
    CityInfo("Kollam", Kerala, Tier3),
    CityInfo("Kannur", Kerala, Tier3),
    CityInfo("Alappuzha", Kerala, Tier3),
    CityInfo("Palakkad", Kerala, Tier3),
    CityInfo("Kottayam", Kerala, Tier3),
    CityInfo("Malappuram", Kerala, Tier3)
  ]

  const MadhyaPradeshCities: seq<CityInfo> := [
    CityInfo("Bhopal", MadhyaPradesh, Tier2),
    CityInfo("Indore", MadhyaPradesh, Tier1),
    CityInfo("Gwalior", MadhyaPradesh, Tier2),
    CityInfo("Jabalpur", MadhyaPradesh, Tier2),
    CityInfo("Ujjain", MadhyaPradesh, Tier3),
    CityInfo("Sagar", MadhyaPradesh, Tier3),
    CityInfo("Rewa", MadhyaPradesh, Tier3),
    CityInfo("Satna", MadhyaPradesh, Tier3),
    CityInfo("Khandwa", MadhyaPradesh, Tier3),
    CityInfo("Burhanpur", MadhyaPradesh, Tier3)
  ]

  const MaharashtraCities: seq<CityInfo> := [
    CityInfo("Mumbai", Maharashtra, Tier1),
    CityInfo("Pune", Maharashtra, Tier1),
    CityInfo("Nagpur", Maharashtra, Tier1),
    CityInfo("Nashik", Maharashtra, Tier2),
    CityInfo("Aurangabad", Maharashtra, Tier2),
    CityInfo("Thane", Maharashtra, Tier1),
    CityInfo("Solapur", Maharashtra, Tier2),
    CityInfo("Kolhapur", Maharashtra, Tier3),
    CityInfo("Amravati", Maharashtra, Tier3),
    CityInfo("Jalgaon", Maharashtra, Tier3),
    CityInfo("Nanded", Maharashtra, Tier3),
    CityInfo("Sangli", Maharashtra, Tier3),
    CityInfo("Akola", Maharashtra, Tier3),
    CityInfo("Chandrapur", Maharashtra, Tier3),
    CityInfo("Parbhani", Maharashtra, Tier3)
  ]

  const ManipurCities: seq<CityInfo> := [
    CityInfo("Imphal", Manipur, Tier3),
    CityInfo("Thoubal", Manipur, Tier3),
    CityInfo("Kakching", Manipur, Tier3),
    CityInfo("Bishnupur", Manipur, Tier3),
    CityInfo("Churachandpur", Manipur, Tier3)
  ]

  const MeghalayaCities: seq<CityInfo> := [
    CityInfo("Shillong", Meghalaya, Tier3),
    CityInfo("Tura", Meghalaya, Tier3),
    CityInfo("Jowai", Meghalaya, Tier3),
    CityInfo("Nongpoh", Meghalaya, Tier3),
    CityInfo("Williamnagar", Meghalaya, Tier3)
  ]

  const MizoramCities: seq<CityInfo> := [
    CityInfo("Aizawl", Mizoram, Tier3),
    CityInfo("Lunglei", Mizoram, Tier3),
    CityInfo("Champhai", Mizoram, Tier3),
    CityInfo("Kolasib", Mizoram, Tier3),
    CityInfo("Serchhip", Mizoram, Tier3)
  ]

  const NagalandCities: seq<CityInfo> := [
    CityInfo("Kohima", Nagaland, Tier3),
    CityInfo("Dimapur", Nagaland, Tier3),
    CityInfo("Mokokchung", Nagaland, Tier3),
    CityInfo("Wokha", Nagaland, Tier3),
    CityInfo("Zunheboto", Nagaland, Tier3)
  ]

  const OdishaCities: seq<CityInfo> := [
    CityInfo("Bhubaneswar", Odisha, Tier2),
    CityInfo("Cuttack", Odisha, Tier2),
    CityInfo("Rourkela", Odisha, Tier3),
    CityInfo("Berhampur", Odisha, Tier3),
    CityInfo("Sambalpur", Odisha, Tier3),
    CityInfo("Balasore", Odisha, Tier3),
    CityInfo("Jharsuguda", Odisha, Tier3)
  ]

  const PunjabCities: seq<CityInfo> := [
    CityInfo("Amritsar", Punjab, Tier2),
    CityInfo("Ludhiana", Punjab, Tier2),
    CityInfo("Jalandhar", Punjab, Tier2),
    CityInfo("Patiala", Punjab, Tier3),
    CityInfo("Bathinda", Punjab, Tier3),
    CityInfo("Mohali", Punjab, Tier2),
    CityInfo("Hoshiarpur", Punjab, Tier3),
    CityInfo("Moga", Punjab, Tier3)
  ]

  const RajasthanCities: seq<CityInfo> := [
    CityInfo("Jaipur", Rajasthan, Tier1),
    CityInfo("Jodhpur", Rajasthan, Tier2),
    CityInfo("Udaipur", Rajasthan, Tier2),
    CityInfo("Kota", Rajasthan, Tier2),
    CityInfo("Ajmer", Rajasthan, Tier3),
    CityInfo("Bikaner", Rajasthan, Tier3),
    CityInfo("Alwar", Rajasthan, Tier3),
    CityInfo("Chittorgarh", Rajasthan, Tier3),
    CityInfo("Pali", Rajasthan, Tier3),
    CityInfo("Sikar", Rajasthan, Tier3)
  ]

  const SikkimCities: seq<CityInfo> := [
    CityInfo("Gangtok", Sikkim, Tier3),
    CityInfo("Namchi", Sikkim, Tier3),
    CityInfo("Mangan", Sikkim, Tier3)
  ]

  const TamilNaduCities: seq<CityInfo> := [
    CityInfo("Chennai", TamilNadu, Tier1),
    CityInfo("Coimbatore", TamilNadu, Tier1),
    CityInfo("Madurai", TamilNadu, Tier2),
    CityInfo("Tiruchirappalli", TamilNadu, Tier2),
    CityInfo("Salem", TamilNadu, Tier2),
    CityInfo("Tirunelveli", TamilNadu, Tier3),
    CityInfo("Erode", TamilNadu, Tier3),
    CityInfo("Vellore", TamilNadu, Tier3),
    CityInfo("Dindigul", TamilNadu, Tier3)
  ]

  const TelanganaCities: seq<CityInfo> := [
    CityInfo("Hyderabad", Telangana, Tier1),
    CityInfo("Warangal", Telangana, Tier2),
    CityInfo("Khammam", Telangana, Tier3),
    CityInfo("Karimnagar", Telangana, Tier3),
    CityInfo("Nizamabad", Telangana, Tier3),
    CityInfo("Mahabubnagar", Telangana, Tier3)
  ]

  const TripuraCities: seq<CityInfo> := [
    CityInfo("Agartala", Tripura, Tier3),
    CityInfo("Kailashahar", Tripura, Tier3),
    CityInfo("Udaipur", Tripura, Tier3),
    CityInfo("Belonia", Tripura, Tier3)
  ]

  const UttarPradeshCities: seq<CityInfo> := [
    CityInfo("Lucknow", UttarPradesh, Tier1),
    CityInfo("Kanpur", UttarPradesh, Tier1),
    CityInfo("Varanasi", UttarPradesh, Tier2),
    CityInfo("Agra", UttarPradesh, Tier2),
    CityInfo("Allahabad", UttarPradesh, Tier2),
    CityInfo("Ghaziabad", UttarPradesh, Tier1),
    CityInfo("Meerut", UttarPradesh, Tier2),
    CityInfo("Noida", UttarPradesh, Tier1),
    CityInfo("Bareilly", UttarPradesh, Tier3),
    CityInfo("Aligarh", UttarPradesh, Tier3)
  ]

  const UttarakhandCities: seq<CityInfo> := [
    CityInfo("Dehradun", Uttarakhand, Tier2),
    CityInfo("Haridwar", Uttarakhand, Tier3),
    CityInfo("Nainital", Uttarakhand, Tier3),
    CityInfo("Roorkee", Uttarakhand, Tier3),
    CityInfo("Haldwani", Uttarakhand, Tier3)
  ]

  const WestBengalCities: seq<CityInfo> := [
    CityInfo("Kolkata", WestBengal, Tier1),
    CityInfo("Darjeeling", WestBengal, Tier3),
    CityInfo("Siliguri", WestBengal, Tier2),
    CityInfo("Asansol", WestBengal, Tier3),
    CityInfo("Howrah", WestBengal, Tier2),
    CityInfo("Durgapur", WestBengal, Tier3),
    CityInfo("Kalyani", WestBengal, Tier3)
  ]

  const IndianCities: seq<CityInfo> :=
    AndhraPradeshCities + ArunachalPradeshCities + AssamCities + BiharCities +
    ChhattisgarhCities + GoaCities + GujaratCities + HaryanaCities +
    HimachalPradeshCities + JharkhandCities + KarnatakaCities + KeralaCities +
    MadhyaPradeshCities + MaharashtraCities + ManipurCities + MeghalayaCities +
    MizoramCities + NagalandCities + OdishaCities + PunjabCities + RajasthanCities +
    SikkimCities + TamilNaduCities + TelanganaCities + TripuraCities + UttarPradeshCities +
    UttarakhandCities + WestBengalCities

  /** `name` is the name of some state of `states`. */
  ghost predicate NameListed(name: string, states: seq<StateInfo>)
  {
    exists k :: 0 <= k < |states| && states[k].stateName == name
  }

  /** Every city of `cities` names a state of `states`. */
  ghost predicate StatesListed(cities: seq<CityInfo>, states: seq<StateInfo>)
  {
    forall i :: 0 <= i < |cities| ==> NameListed(cities[i].stateName, states)
  }

  lemma ChunkListed(cities: seq<CityInfo>, k: nat)
    requires k < |IndianStates|
    requires forall i :: 0 <= i < |cities| ==> cities[i].stateName == IndianStates[k].stateName
    ensures StatesListed(cities, IndianStates)
  {
    forall i | 0 <= i < |cities|
      ensures NameListed(cities[i].stateName, IndianStates)
    {
      assert IndianStates[k].stateName == cities[i].stateName;
    }
  }

  lemma ConcatListed(a: seq<CityInfo>, b: seq<CityInfo>)
    requires StatesListed(a, IndianStates) && StatesListed(b, IndianStates)
    ensures StatesListed(a + b, IndianStates)
  {
    forall i | 0 <= i < |a + b|
      ensures NameListed((a + b)[i].stateName, IndianStates)
    {
      if i >= |a| {
        assert (a + b)[i] == b[i - |a|];
      }
    }
  }

  // One lemma per state: the cities listed under that state all name it.
  lemma AndhraPradeshCitiesListed() ensures StatesListed(AndhraPradeshCities, IndianStates) { ChunkListed(AndhraPradeshCities, 0); }
  lemma ArunachalPradeshCitiesListed() ensures StatesListed(ArunachalPradeshCities, IndianStates) { ChunkListed(ArunachalPradeshCities, 1); }
  lemma AssamCitiesListed() ensures StatesListed(AssamCities, IndianStates) { ChunkListed(AssamCities, 2); }
  lemma BiharCitiesListed() ensures StatesListed(BiharCities, IndianStates) { ChunkListed(BiharCities, 3); }
  lemma ChhattisgarhCitiesListed() ensures StatesListed(ChhattisgarhCities, IndianStates) { ChunkListed(ChhattisgarhCities, 4); }
  lemma GoaCitiesListed() ensures StatesListed(GoaCities, IndianStates) { ChunkListed(GoaCities, 5); }
  lemma GujaratCitiesListed() ensures StatesListed(GujaratCities, IndianStates) { ChunkListed(GujaratCities, 6); }
  lemma HaryanaCitiesListed() ensures StatesListed(HaryanaCities, IndianStates) { ChunkListed(HaryanaCities, 7); }
  lemma HimachalPradeshCitiesListed() ensures StatesListed(HimachalPradeshCities, IndianStates) { ChunkListed(HimachalPradeshCities, 8); }
  lemma JharkhandCitiesListed() ensures StatesListed(JharkhandCities, IndianStates) { ChunkListed(JharkhandCities, 9); }
  lemma KarnatakaCitiesListed() ensures StatesListed(KarnatakaCities, IndianStates) { ChunkListed(KarnatakaCities, 10); }
  lemma KeralaCitiesListed() ensures StatesListed(KeralaCities, IndianStates) { ChunkListed(KeralaCities, 11); }
  lemma MadhyaPradeshCitiesListed() ensures StatesListed(MadhyaPradeshCities, IndianStates) { ChunkListed(MadhyaPradeshCities, 12); }
  lemma MaharashtraCitiesListed() ensures StatesListed(MaharashtraCities, IndianStates) { ChunkListed(MaharashtraCities, 13); }
  lemma ManipurCitiesListed() ensures StatesListed(ManipurCities, IndianStates) { ChunkListed(ManipurCities, 14); }
  lemma MeghalayaCitiesListed() ensures StatesListed(MeghalayaCities, IndianStates) { ChunkListed(MeghalayaCities, 15); }
  lemma MizoramCitiesListed() ensures StatesListed(MizoramCities, IndianStates) { ChunkListed(MizoramCities, 16); }
  lemma NagalandCitiesListed() ensures StatesListed(NagalandCities, IndianStates) { ChunkListed(NagalandCities, 17); }
  lemma OdishaCitiesListed() ensures StatesListed(OdishaCities, IndianStates) { ChunkListed(OdishaCities, 18); }
  lemma PunjabCitiesListed() ensures StatesListed(PunjabCities, IndianStates) { ChunkListed(PunjabCities, 19); }
  lemma RajasthanCitiesListed() ensures StatesListed(RajasthanCities, IndianStates) { ChunkListed(RajasthanCities, 20); }
  lemma SikkimCitiesListed() ensures StatesListed(SikkimCities, IndianStates) { ChunkListed(SikkimCities, 21); }
  lemma TamilNaduCitiesListed() ensures StatesListed(TamilNaduCities, IndianStates) { ChunkListed(TamilNaduCities, 22); }
  lemma TelanganaCitiesListed() ensures StatesListed(TelanganaCities, IndianStates) { ChunkListed(TelanganaCities, 23); }
  lemma TripuraCitiesListed() ensures StatesListed(TripuraCities, IndianStates) { ChunkListed(TripuraCities, 24); }
  lemma UttarPradeshCitiesListed() ensures StatesListed(UttarPradeshCities, IndianStates) { ChunkListed(UttarPradeshCities, 25); }
  lemma UttarakhandCitiesListed() ensures StatesListed(UttarakhandCities, IndianStates) { ChunkListed(UttarakhandCities, 26); }
  lemma WestBengalCitiesListed() ensures StatesListed(WestBengalCities, IndianStates) { ChunkListed(WestBengalCities, 27); }

  /** The sizes of the fixed tables. */
  lemma TableSizes()
    ensures |IndianStates| == 28 && |IndianCities| == 252
  {
  }

  /** Every city of the fixed table names one of the 28 fixed states, so the
      name-to-id lookup of the city builder is total. */
  lemma CitiesNameListedStates()
    ensures |IndianStates| == 28 && |IndianCities| == 252
    ensures StatesListed(IndianCities, IndianStates)
  {
    AndhraPradeshCitiesListed();
    ArunachalPradeshCitiesListed();
    AssamCitiesListed();
    BiharCitiesListed();
    ChhattisgarhCitiesListed();
    GoaCitiesListed();
    GujaratCitiesListed();
    HaryanaCitiesListed();
    HimachalPradeshCitiesListed();
    JharkhandCitiesListed();
    KarnatakaCitiesListed();
    KeralaCitiesListed();
    MadhyaPradeshCitiesListed();
    MaharashtraCitiesListed();
    ManipurCitiesListed();
    MeghalayaCitiesListed();
    MizoramCitiesListed();
    NagalandCitiesListed();
    OdishaCitiesListed();
    PunjabCitiesListed();
    RajasthanCitiesListed();
    SikkimCitiesListed();
    TamilNaduCitiesListed();
    TelanganaCitiesListed();
    TripuraCitiesListed();
    UttarPradeshCitiesListed();
    UttarakhandCitiesListed();
    WestBengalCitiesListed();
    // Grow the listed prefix one state's chunk at a time.
    var prefix := AndhraPradeshCities;
    ConcatListed(prefix, ArunachalPradeshCities);
    prefix := prefix + ArunachalPradeshCities;
    ConcatListed(prefix, AssamCities);
    prefix := prefix + AssamCities;
    ConcatListed(prefix, BiharCities);
    prefix := prefix + BiharCities;
    ConcatListed(prefix, ChhattisgarhCities);
    prefix := prefix + ChhattisgarhCities;
    ConcatListed(prefix, GoaCities);
    prefix := prefix + GoaCities;
    ConcatListed(prefix, GujaratCities);
    prefix := prefix + GujaratCities;
    ConcatListed(prefix, HaryanaCities);
    prefix := prefix + HaryanaCities;
    ConcatListed(prefix, HimachalPradeshCities);
    prefix := prefix + HimachalPradeshCities;
    ConcatListed(prefix, JharkhandCities);
    prefix := prefix + JharkhandCities;
    ConcatListed(prefix, KarnatakaCities);
    prefix := prefix + KarnatakaCities;
    ConcatListed(prefix, KeralaCities);
    prefix := prefix + KeralaCities;
    ConcatListed(prefix, MadhyaPradeshCities);
    prefix := prefix + MadhyaPradeshCities;
    ConcatListed(prefix, MaharashtraCities);
    prefix := prefix + MaharashtraCities;
    ConcatListed(prefix, ManipurCities);
    prefix := prefix + ManipurCities;
    ConcatListed(prefix, MeghalayaCities);
    prefix := prefix + MeghalayaCities;
    ConcatListed(prefix, MizoramCities);
    prefix := prefix + MizoramCities;
    ConcatListed(prefix, NagalandCities);
    prefix := prefix + NagalandCities;
    ConcatListed(prefix, OdishaCities);
    prefix := prefix + OdishaCities;
    ConcatListed(prefix, PunjabCities);
    prefix := prefix + PunjabCities;
    ConcatListed(prefix, RajasthanCities);
    prefix := prefix + RajasthanCities;
    ConcatListed(prefix, SikkimCities);
    prefix := prefix + SikkimCities;
    ConcatListed(prefix, TamilNaduCities);
    prefix := prefix + TamilNaduCities;
    ConcatListed(prefix, TelanganaCities);
    prefix := prefix + TelanganaCities;
    ConcatListed(prefix, TripuraCities);
    prefix := prefix + TripuraCities;
    ConcatListed(prefix, UttarPradeshCities);
    prefix := prefix + UttarPradeshCities;
    ConcatListed(prefix, UttarakhandCities);
    prefix := prefix + UttarakhandCities;
    ConcatListed(prefix, WestBengalCities);
    prefix := prefix + WestBengalCities;
    assert prefix == IndianCities;
  }

  lemma BilaspurTwice()
    ensures |IndianCities| == 252
    ensures IndianCities[61] == CityInfo("Bilaspur", Chhattisgarh, Tier3)
    ensures IndianCities[107] == CityInfo("Bilaspur", HimachalPradesh, Tier3)
  {
    TableSizes();
  }

  lemma UdaipurTwice()
    ensures |IndianCities| == 252
    ensures IndianCities[200] == CityInfo("Udaipur", Rajasthan, Tier2)
    ensures IndianCities[228] == CityInfo("Udaipur", Tripura, Tier3)
  {
    TableSizes();
  }
}
