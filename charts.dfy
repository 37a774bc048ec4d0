/** The two chart datasets the dashboard hands to its template. */
module Charts {

  /** A chart: labels and values, two parallel lists. */
  datatype Chart = Chart(labels: seq<string>, values: seq<int>)

}
